# Freemix protocols, verified

A Dafny model of the stateful cores of freemix, a live video mixer made of a daemon, a desktop studio, a
capture node and command line tools, and proofs about every run of them. `dafny verify dfyconfig.toml`
checks the whole project.

| files | what they model |
|---|---|
| `Codec`, `CodecAnswers`, `Engine`, `Journal`, `CrashSafety`, `JournalAnswers` | the write-ahead journal of the daemon: payload codec, command execution, append, checkpoint, recovery, every run of these with a crash after any durable write, and when each of them succeeds |
| `Wire`, `Peer`, `PeerRun`, `PeerLedger`, `PeerFraming`, `PeerWitness`, `Delivery`, `PeerDelivery`, `PeerResults`, `PeerRecords`, `PeerShutdown`, `PeerAnswers` | one peer of the daemon's scheduler: phases, the bounded queue and its session ledger, two lossy slots, short writes, live events, both ways to shut down, and what every step and every answer of the socket leads to |
| `Intents`, `IntentRun`, `IntentAnswers`, `Uncertainty`, `UncertaintyAnswers` | the studio's operator intents on their way through three bounded, merging queues, and the worker's recovery state with its ledger of uncertain commands |
| `Mailbox`, `Surface`, `SurfaceAnswers`, `Monitors`, `MonitorAnswers` | the one-slot mailbox between two threads, the recreation handshake of the program surface, and the choice of a monitor |
| `Backoff`, `Broker`, `BrokerRun`, `BrokerAnswers` | the capture broker: permissions, pairing, publications, reconnect delays |
| `Readers`, `RemoteReader`, `ReaderAnswers`, `Osc` | three bounded line readers over input in arbitrary pieces, and the OSC decoder |

State that the programs update in place is a class whose methods are proved against functions on values;
the results over whole runs are lemmas about those functions. Nondeterminism is a parameter: the engine's
decision on a command, the line codec, which disk operation fails, what a socket answers, what the session
ledger admits, what the runtime reports, and the order of the steps themselves. The `Answers` modules say
which answer each operation gives to each of these, in both directions and in numbers, over whole runs.

Journal rows hold sequences and revisions as signed 64-bit integers
(crates/services/fm-persistence/src/journal.rs:1231-1235), so a journal is created only at a sequence and
revision below 2^63 (`Created`), and a command past that bound is refused as one that cannot be recorded.

Four things that reading the code alone does not show:

- A failed checkpoint of a refused command can leave in the manifest a receipt that the daemon never
  installed, and replay of a later command under that key would diverge (`KnownKeyDefeatsReplay`). It cannot
  happen, because the pending count then stays at the bound and forces a checkpoint of the previous project
  before the next append; this is part of the invariant behind `EveryRunIsFaithful`.
- The idle write pass can break the framing of a raw peer's stream: after a short meter write it still offers
  the status record to the socket. `PassKeepsFraming` gives the exact condition, `RuleIsNeeded` a whole
  run from the handshake on that meets it; a socket that takes nothing more in a pass after a short write never meets it.
- The shift form of the reconnect delay is not capped doubling for every policy: it stays at 2^63 when the
  initial delay is 1 ms and the maximum is larger (`ShiftIsCappedDoubling`, `ShiftFallsShort`). In the broker
  itself no second attempt is ever recorded, so only the initial delay occurs (`BrokerIsSafe`).
- A lost program surface does come back: from every reachable state that waits for one, a fixed sequence of
  nine steps of the two threads installs it, unless the answer already under way is a failure
  (`LostSurfaceComesBack`).

## Model

| member | source | states |
|---|---|---|
| `Codec.BuildPayload` | apps/freemixd/src/journal.rs:202-224 | filling the buffer field by field yields exactly the payload that the round trip is proved for |
| `Codec.RoundTrip` | apps/freemixd/src/journal.rs:202-268 | decoding undoes encoding for every command, instant and position, given an invertible line codec |
| `Codec.AcceptedPayloadIsCanonical` | apps/freemixd/src/journal.rs:226-279 | an accepted payload has at least 60 bytes, the current protocol version and, byte for byte, the header that encoding the decoded mutation gives |
| `Codec.AcceptedHeadersAgree` | apps/freemixd/src/journal.rs:226-268 | two payloads that decode to one mutation have the same 60-byte header |
| `Codec.DecodeOfEncodedHeader` | apps/freemixd/src/journal.rs:32-38 | the header reads back as the version, instant and position it was written from |
| `Codec.EncodeOfDecodedHeader` | apps/freemixd/src/journal.rs:32-38 | any 60 bytes are the header of what they decode to, so no header has two readings |
| `CodecAnswers.HeaderLayout` | apps/freemixd/src/journal.rs:202-224 | a payload opens with the version 2.18, the instant and the six position words in this order, each lowest byte first, and the command line follows |
| `CodecAnswers.RefusesExactly` | apps/freemixd/src/journal.rs:226-268 | a payload is accepted exactly if it is long enough, of this protocol version, valid UTF-8 and a command; otherwise the first of these that fails is the error |
| `Engine.DecisionsIgnoreRefusals` | crates/foundation/fm-command/src/machine.rs:252-381 | two projects that differ only in receipts of refused commands decide every new command alike, reach the same position and still differ only in such receipts |
| `JournalAnswers.RefusedExactly` | crates/foundation/fm-command/src/machine.rs:252-381 | a new command is refused if and only if its deadline has passed, it expects another revision, the mutation is rejected or the revisions are used up; a known key is answered from its receipt |
| `JournalAnswers.OutcomeExactly` | crates/foundation/fm-command/src/machine.rs:314-381 | acceptance installs the decided show and position at the next revision, a refusal changes neither, and each adds the one receipt that says so |
| `Journal.ReplayJournal` | apps/freemixd/src/main.rs:5636-5681 | the replay loop computes the fold of its batches and returns the first error |
| `Journal.DurableJournal.Settle` | apps/freemixd/src/journal.rs:83-90 | a settled journal is untouched; otherwise the call is a checkpoint, with every disk image it makes durable |
| `Journal.DurableJournal.Checkpoint` | apps/freemixd/src/journal.rs:138-147 | writer, pending count and disk images of a checkpoint that may fail at the save, at the advance or at the truncation |
| `Journal.DurableJournal.Record` | apps/freemixd/src/journal.rs:92-136 | refused commands only count; at 64 a checkpoint of the previous project precedes the append; images in the order they become durable |
| `CrashSafety.ScanOfHeldDisk` | crates/services/fm-persistence/src/journal.rs:711-803 | reading a good disk back trips no limit or consistency check and returns exactly the batches newer than the manifest |
| `CrashSafety.HeldDiskRecovers` | apps/freemixd/src/main.rs:5554-5583 | recovering a good disk succeeds and reaches the held project up to refused receipts |
| `CrashSafety.ReplayAddsNoRefusal` | apps/freemixd/src/main.rs:5636-5681 | replay moves the revision by one per batch and never adds the receipt of a refusal |
| `CrashSafety.CheckpointImages` | crates/services/fm-persistence/src/journal.rs:979-1022 | every disk image of a checkpoint, complete or cut short, still holds the project; success leaves no batch and nothing pending |
| `CrashSafety.AppendedBatchReplays` | apps/freemixd/src/main.rs:5636-5681 | replaying the batch of an accepted command reaches the state the command produced even from a manifest that knows fewer refusals |
| `CrashSafety.KnownKeyDefeatsReplay` | apps/freemixd/src/main.rs:5636-5681 | if the manifest already knows the key of a recorded command, replay of that batch diverges: the hazard that the checkpoint bound keeps away |
| `CrashSafety.AppendImages` | crates/services/fm-persistence/src/journal.rs:921-964 | a failed append leaves nothing; a successful one makes one image, which holds the updated project |
| `CrashSafety.SettleIsSafe` | apps/freemixd/src/journal.rs:83-90 | settling keeps the invariant and the project, whatever fails inside it |
| `CrashSafety.RefusalIsSafe` | apps/freemixd/src/journal.rs:92-136 | recording a refused command keeps the invariant and loses nothing but at most that refusal |
| `CrashSafety.AcceptanceIsSafe` | apps/freemixd/src/journal.rs:92-136 | recording an accepted command keeps the invariant; every image holds the project before it or, if it reported success, after it |
| `CrashSafety.OperationIsSafe` | apps/freemixd/src/journal.rs:83-147 | every operation with every fault keeps the invariant, and every durable image recovers to the project before or after it |
| `CrashSafety.FailedRecordLeavesNoBatch` | apps/freemixd/src/journal.rs:92-136 | a record that reports an error leaves no batch for its command in any disk image |
| `CrashSafety.RestartIsSafe` | apps/freemixd/src/main.rs:5554-5583 | a restart yields a valid daemon on the held project; every image it writes on the way still holds it |
| `CrashSafety.InterruptedRecoveriesAreSafe` | apps/freemixd/src/main.rs:5554-5583 | any number of recoveries, each cut short at any write, leave a disk that still holds the project |
| `CrashSafety.StepIsFaithful` | apps/freemixd/src/journal.rs:83-147 | one completed operation, or one crash at any of its writes followed by recoveries, extends the history by at most the one command that became durable |
| `CrashSafety.EveryRunIsFaithful` | apps/freemixd/src/journal.rs:83-147 | crash safety: on every run, with crashes anywhere, the state is the start with each acknowledged command applied once, in order, plus at most commands that were durable but unacknowledged; equality up to refused receipts |
| `CrashSafety.ReceiptsAreKept` | apps/freemixd/src/journal.rs:83-147 | what a client was told stays true: on every run, with crashes anywhere, every receipt of an accepted command that is durable at some point is there with the same value at every later point |
| `CrashSafety.EveryRunStaysBounded` | apps/freemixd/src/journal.rs:29-147 | on every run at most 64 batches are unapplied, sequences and revisions are contiguous from the checkpoint, and pending = 0 means the manifest is the current project |
| `JournalAnswers.AcceptedIsDurableExactly` | apps/freemixd/src/journal.rs:92-136 | recording an accepted command succeeds, and its state is on the disk, if and only if no fault of a call it makes strikes, its line encodes into a record of at most 1 MiB and the next sequence and revision fit a row |
| `JournalAnswers.RefusalIsCountedExactly` | apps/freemixd/src/journal.rs:92-136 | recording a refused command counts it without touching the disk, and the 64th mutation since the last checkpoint writes the manifest; only a fault of that write loses the refusal |
| `JournalAnswers.SettlesExactly` | apps/freemixd/src/journal.rs:83-90 | settling succeeds if and only if nothing was pending or nothing fails, and then the manifest is the project, receipts and all, with no batch left |
| `JournalAnswers.CheckpointsExactly` | crates/services/fm-persistence/src/journal.rs:979-1022 | a checkpoint succeeds if and only if nothing fails; the head sequence stays where it was |
| `JournalAnswers.CreatesExactly` | crates/services/fm-persistence/src/journal.rs:1200-1235 | a journal can be created exactly if its sequence and revision fit a signed 64-bit row; it starts with the project as its manifest and nothing pending |
| `JournalAnswers.AppendsExactly` | crates/services/fm-persistence/src/journal.rs:921-964 | right after at most 63 others an append succeeds if and only if the record can be written, rows are left and the write does not fail |
| `JournalAnswers.EveryRunGoesOn` | apps/freemixd/src/journal.rs:83-147 | on every run, with crashes anywhere, the next accepted command is acknowledged exactly under those conditions, and a settle without a fault leaves the manifest equal to the project |
| `JournalAnswers.ScansExactly` | crates/services/fm-persistence/src/journal.rs:711-803 | a disk can be read if and only if its batches continue the checkpoint within the limits and the manifest sits on the checkpoint or on a batch, or no batch is left; what is read is what is newer than the manifest |
| `JournalAnswers.ScanErrorsExactly` | crates/services/fm-persistence/src/journal.rs:711-803 | each refusal to read has its one reason, the age of the manifest before the limits before the gaps |
| `JournalAnswers.ReplaysExactly` | apps/freemixd/src/main.rs:5636-5681 | a replayed batch lands on the revision of its row and the position it recorded, or stops the recovery with the error for what differs |
| `Wire.WriteOnce` | apps/freemixd/src/main.rs:7405-7428 | a write call moves exactly the accepted bytes; complete, partial, blocked and failed answers are told apart |
| `Wire.WriteSlot` | apps/freemixd/src/latest_record.rs:38-50 | the bytes written by a slot are whole records followed by the prefix of the record in flight |
| `Wire.LatestRecordSlot.ReplaceWith` | apps/freemixd/src/latest_record.rs:12-20 | an in-flight record is kept and only the record behind it replaced |
| `Wire.LatestRecordSlot.Discard` | apps/freemixd/src/latest_record.rs:31-36 | only an in-flight record survives |
| `Wire.LatestRecordSlot.Write` | apps/freemixd/src/latest_record.rs:38-50 | promotion, then one write call, keeping the slot valid |
| `Wire.SlotStepKeepsOrder` | apps/freemixd/src/latest_record.rs:11-50 | replacing or writing keeps finished, current and waiting records in offer order |
| `Wire.SlotDeliversLatest` | apps/freemixd/src/latest_record.rs:11-50 | over every run a slot delivers offered records in order, each at most once, and once empty it has delivered the last one offered |
| `Peer.PeerObject.Queue` | apps/freemixd/src/non_native_sessions.rs:143-169 | queueing is refused at 32 records, on an encoding failure or by the ledger, and then changes nothing |
| `Peer.PeerObject.FeedInitialSync` | apps/freemixd/src/non_native_sessions.rs:171-181 | the loop feeds the sync up to capacity, stopping at the first refusal |
| `Peer.PeerObject.DiscardOutbound` | apps/freemixd/src/non_native_sessions.rs:237-247 | one record leaves the queue and its ledger entry with it |
| `Peer.PeerObject.ReplaceOutboundForShutdown` | apps/freemixd/src/non_native_sessions.rs:203-211 | records are discarded from the back down to the in-flight front |
| `Peer.PeerObject.PreserveOutboundForShutdown` | apps/freemixd/src/non_native_sessions.rs:213-235 | a full queue loses its last removable record |
| `Peer.PeerObject.WriteRawPass` | apps/freemixd/src/non_native_sessions.rs:812-850 | one raw write pass: in-flight slot first, then the queue, then the slots when idle |
| `Peer.PeerObject.FinishFront` | apps/freemixd/src/non_native_sessions.rs:852-871 | a completed record leaves the queue and the ledger, and a handshake response is noted |
| `Peer.LastRemovable` | apps/freemixd/src/non_native_sessions.rs:217-231 | the found record is removable and every record behind it is a command result or in flight |
| `PeerLedger.ReleaseIsBalanced` | crates/services/fm-server/src/session.rs:340-360 | releasing an entry takes exactly its bytes off the totals, which never underflow |
| `PeerLedger.QueuedKeepsAlignment` | apps/freemixd/src/non_native_sessions.rs:143-169 | queueing keeps the ledger the list of lengths of the accounted records at the front of the queue |
| `PeerLedger.DiscardedKeepsAlignment` | apps/freemixd/src/non_native_sessions.rs:237-247 | discarding a record at any index releases the ledger entry that mirrors it and no other |
| `PeerLedger.DiscardedDownToIsSound` | apps/freemixd/src/non_native_sessions.rs:203-211 | discarding from the back keeps exactly the front, and ledger and queue aligned |
| `PeerLedger.TrimmedIsSound` | apps/freemixd/src/non_native_sessions.rs:203-247 | both shutdown modes keep queue and ledger aligned |
| `PeerLedger.FinishKeepsAlignment` | apps/freemixd/src/non_native_sessions.rs:852-871 | completing the front record never fails on the ledger and keeps it aligned |
| `PeerLedger.RawPassIsSound` | apps/freemixd/src/non_native_sessions.rs:812-850 | a raw write pass keeps shape and alignment, whatever the socket answers |
| `PeerLedger.WebPassIsSound` | apps/freemixd/src/non_native_sessions.rs:774-811 | a web write pass, which accounts late, keeps shape and alignment |
| `PeerLedger.NextIsSound` | apps/freemixd/src/non_native_sessions.rs:252-462 | every step of the scheduler keeps shape and alignment |
| `PeerLedger.EveryRunKeepsTheLedger` | apps/freemixd/src/non_native_sessions.rs:143-247 | ledger alignment on every run, raw or web, and for every index the entry that a discard would release is the right one |
| `PeerFraming.PassKeepsFraming` | apps/freemixd/src/non_native_sessions.rs:812-850 | a raw pass keeps the stream framed if and only if it is not the idle pass with a short meter write followed by accepted status bytes |
| `PeerFraming.InterleavingBreaksFraming` | apps/freemixd/src/non_native_sessions.rs:822-828 | that one pass breaks the framing for every peer and every pair of answers in the family |
| `PeerFraming.NextKeepsFraming` | apps/freemixd/src/non_native_sessions.rs:252-462 | every step of a run over a socket that keeps the rule keeps the stream framed |
| `PeerFraming.EveryPoliteRunIsFramed` | apps/freemixd/src/non_native_sessions.rs:812-850 | wire framing: on every such run the bytes are whole records followed by a proper prefix of at most one record in flight |
| `PeerFraming.FullSlotsBreakFraming` | apps/freemixd/src/non_native_sessions.rs:822-828 | any framed idle raw peer that holds a meter and a status record loses the framing when the socket takes one byte of the first and all of the second |
| `PeerWitness.RuleIsNeeded` | apps/freemixd/src/non_native_sessions.rs:822-828 | a concrete run from the start of a connection (handshake, sync, two writes, active, one record per slot) that is framed up to its last pass and not after it |
| `PeerDelivery.EveryRunDelivers` | apps/freemixd/src/non_native_sessions.rs:629-766 | gap-free delivery: handshake response, whole sync, then the rest; durable revisions contiguous after the snapshot or cursor; the result of each execution before its own event; goodbye last; without a session at most one message |
| `PeerResults.NextIsCounted` | apps/freemixd/src/non_native_sessions.rs:533-566 | every step of the scheduler keeps results numbered by execution, each number at most once, and puts none anywhere but the queue |
| `PeerResults.OneResultBeforeEachEvent` | apps/freemixd/src/non_native_sessions.rs:533-566 | on every run the delivered results are those of distinct executions in execution order, and each own event delivered comes after the one result of its execution, whatever ids the client reused |
| `PeerRecords.EveryRunIsOnTheWire` | apps/freemixd/src/non_native_sessions.rs:812-871 | on every run of a raw peer the encodings of the delivered messages are a subsequence, in order, of the whole records on the wire |
| `PeerRecords.TheWireCarriesTheConversation` | apps/freemixd/src/non_native_sessions.rs:774-871 | on every run over a socket that keeps the rule the wire is whole records and part of one more, and the lawful conversation that was delivered is, encoded, among those records in order |
| `PeerDelivery.NothingIsMissing` | apps/freemixd/src/non_native_sessions.rs:736-766 | while an active peer keeps up, what it was told, what is queued and what waits for it reach the control plane's revision exactly |
| `PeerDelivery.NextIsOrdered` | apps/freemixd/src/non_native_sessions.rs:252-462 | every step of the scheduler keeps the delivery order |
| `PeerDelivery.EstablishingIsOrdered` | apps/freemixd/src/non_native_sessions.rs:629-724 | a handshake starts a lawful transcript with a snapshot or with every event after the cursor |
| `PeerDelivery.FeedingIsOrdered` | apps/freemixd/src/non_native_sessions.rs:171-181 | feeding the sync continues the opening in order |
| `PeerDelivery.DrainingIsOrdered` | apps/freemixd/src/non_native_sessions.rs:736-766 | draining a live event keeps revisions contiguous |
| `PeerDelivery.ExecutingIsOrdered` | apps/freemixd/src/non_native_sessions.rs:533-566 | a result is queued ahead of the event its command published |
| `PeerDelivery.WritingIsOrdered` | apps/freemixd/src/non_native_sessions.rs:774-871 | a write pass only moves the front of the queue to what was delivered |
| `PeerDelivery.ShuttingDownIsOrdered` | apps/freemixd/src/non_native_sessions.rs:940-963 | both shutdown modes keep what will be delivered lawful |
| `PeerShutdown.PreservingTrimsOne` | apps/freemixd/src/non_native_sessions.rs:213-235 | preserving removes at most one record, only from a full queue, never a result or one in flight, and keeps the order of the rest |
| `PeerShutdown.ReplacingKeepsTheFlight` | apps/freemixd/src/non_native_sessions.rs:203-211 | replacing keeps exactly the record in flight |
| `PeerShutdown.GoodbyeIsQueued` | apps/freemixd/src/non_native_sessions.rs:940-963 | on every run the goodbye is queued last if and only if it can be encoded and, when preserving, the queue is not full of unremovable records |
| `PeerAnswers.PreservingDropsTheLast` | apps/freemixd/src/non_native_sessions.rs:213-235 | preserving, a full queue loses the last record that is no result and of which nothing was written or sent, and nothing if there is none |
| `PeerAnswers.ReplacingKeepsOnlyTheFlight` | apps/freemixd/src/non_native_sessions.rs:203-211 | replacing, the queue keeps its front if some of it was written or sent, and nothing else |
| `PeerAnswers.EveryWriteIsAnswered` | apps/freemixd/src/non_native_sessions.rs:812-871 | on every run of a raw peer a pass puts on the wire exactly the bytes the socket takes of what it was offered, delivers the front of the queue exactly when all of it is taken, and closes the peer exactly if the socket refuses an offered record or a closing peer has nothing left |
| `PeerAnswers.WouldBlockChangesNothing` | apps/freemixd/src/non_native_sessions.rs:839-848 | on every run a socket that would block leaves wire, queue and slots as they were, but for the promotion of a waiting record, and the peer open unless it is closing with nothing left |
| `PeerAnswers.FrontAnswers` | apps/freemixd/src/non_native_sessions.rs:834-871 | the front of the queue stays with the rest of its bytes, or is delivered and released once whole |
| `PeerAnswers.SlotAnswers` | apps/freemixd/src/latest_record.rs:38-50 | a slot offers its current record, or the waiting one if there is none, moves what the socket takes and fails exactly on a refusal |
| `PeerAnswers.EveryWebWriteIsAnswered` | apps/freemixd/src/non_native_sessions.rs:774-811 | on every run of a web peer a pass sends the front, or delivers it on its acknowledgement, and closes the peer exactly if the front cannot be counted or sent or its channel is gone, or a closing peer has nothing left |
| `PeerAnswers.EveryStepIsAnswered` | apps/freemixd/src/non_native_sessions.rs:252-462 | on every run a step other than a write closes the peer exactly for its stated reasons, takes it to the stated phase and queues exactly the stated messages |
| `PeerAnswers.EstablishingIsAnswered` | apps/freemixd/src/non_native_sessions.rs:687-724 | a handshake succeeds exactly if the sync is within the limit and the response can be queued; a cursor that is not ahead of the log gets the events after it, any other peer a snapshot, and only a raw studio the lossy records |
| `PeerAnswers.ShuttingDownIsAnswered` | apps/freemixd/src/non_native_sessions.rs:940-963 | a peer without a session or handshake is closed; any other keeps only lossy records in flight, loses its sync and is closing |
| `PeerAnswers.EventsAreHeard` | crates/services/fm-control/src/lib.rs:1053-1075 | each event and each accepted command takes the next revision and reaches a subscriber with room, or detaches one without |
| `PeerAnswers.SlotsAreReplaced` | apps/freemixd/src/non_native_sessions.rs:189-202 | an active listener keeps the record in flight and has the new one next, with nothing else waiting; no other peer is offered it |
| `PeerAnswers.HandshakeIsNoted` | apps/freemixd/src/non_native_sessions.rs:852-871 | on every run the handshake counts as written exactly once its response was delivered |
| `Intents.MergedUpdateResolves` | apps/freemix-studio/src/native.rs:1276-1299 | resolving a merged strip update is resolving the newer one after the older one, with the same errors |
| `Intents.CoalescedMeansBoth` | apps/freemix-studio/src/native.rs:102-130 | a merged intent does to every show what the two intents do in turn |
| `Intents.PendingIntents.Submit` | apps/freemix-studio/src/native.rs:143-156 | straight to the channel if nothing is pending, else merged, appended or refused |
| `Intents.PendingIntents.Flush` | apps/freemix-studio/src/native.rs:158-169 | the loop hands over, in order, as many as the channel takes, and reports a lost worker |
| `Intents.PendingIntents.Push` | apps/freemix-studio/src/native.rs:171-182 | merge into the tail, or append below 16, or refuse |
| `Intents.RequestChannel.TrySend` | apps/freemix-studio/src/native.rs:92-100 | a bounded channel: full, disconnected or appended at the back |
| `IntentRun.PushedStands` | apps/freemix-studio/src/native.rs:102-182 | pushing keeps submission order and every waiting intent equal in meaning to its submissions |
| `IntentRun.SubmittingIsAccounted` | apps/freemix-studio/src/native.rs:143-182 | a submission is sent, merged, queued or rejected, exactly one of these |
| `IntentRun.FlushingIsAccounted` | apps/freemix-studio/src/native.rs:158-264 | flushing loses and reorders nothing; a lost worker rejects exactly what was still pending |
| `IntentRun.DeferringIsAccounted` | apps/freemix-studio/src/native.rs:650-672 | a deferred request is merged, queued or, as a whole, rejected |
| `IntentRun.NextIsAccounted` | apps/freemix-studio/src/native.rs:799-890 | every step of window and worker keeps the account |
| `IntentRun.CoalescingPreservesMeaning` | apps/freemix-studio/src/native.rs:102-187 | on every run, for any meaning of the other intents and every show, handled, deferred, channel and pending intents mean what the non-rejected submissions mean in order |
| `IntentRun.EverySubmissionIsInOnePlace` | apps/freemix-studio/src/native.rs:532-566 | on every run each submission is rejected or stands in exactly one place, in submission order, and no queue exceeds 16 |
| `IntentAnswers.ResolvesExactly` | apps/freemix-studio/src/native.rs:1276-1299 | an edit fails exactly if the project is not synchronized or the input is gone, and otherwise each of the six fields is the value of the update if it has one and that of the strip if not |
| `IntentAnswers.EditsOneStrip` | apps/freemix-studio/src/native.rs:1276-1299 | an edit of a known input changes that strip, field by field, and nothing else; one of an unknown input changes nothing |
| `IntentAnswers.LastGainStands` | apps/freemix-studio/src/native.rs:102-130 | whatever went before, the last gain set on a known input is the gain it has |
| `IntentAnswers.MergesExactly` | apps/freemix-studio/src/native.rs:102-130 | two positions merge, two edits of one input merge, nothing else does |
| `IntentAnswers.PushesExactly` | apps/freemix-studio/src/native.rs:171-182 | a push merges into the newest item whenever the two merge, whatever room there is, and otherwise appends below the capacity |
| `IntentAnswers.RefusesExactly` | apps/freemix-studio/src/native.rs:143-182 | on every run a submission is refused exactly if the worker is lost or all 16 places are taken and the newest does not merge |
| `IntentAnswers.FlushesExactly` | apps/freemix-studio/src/native.rs:158-169 | a flush leaves nothing that the channel could still take, and a lost worker refuses all that was pending |
| `IntentAnswers.DefersExactly` | apps/freemix-studio/src/native.rs:532-566 | a busy worker defers a request unless 16 are deferred and the newest does not merge |
| `IntentAnswers.EveryIntentIsHandled` | apps/freemix-studio/src/native.rs:799-905 | from every state with a worker that was not told to stop, taking turns handles everything that waits, in order, and refuses none of it |
| `Uncertainty.WorkerRecovery.DeferIntent` | apps/freemix-studio/src/native.rs:532-566 | merge, append below 16, or count a rejection that saturates |
| `Uncertainty.WorkerRecovery.CapturePendingTerminalUncertainty` | apps/freemix-studio/src/native.rs:592-626 | the ledger gains the pending command exactly when it is uncertain, unlisted and there is room |
| `Uncertainty.WorkerRecovery.AbsorbFailure` | apps/freemix-studio/src/native.rs:965-980 | capture, realization flag, wait and pending command after a failed sequence |
| `Uncertainty.WorkerRecovery.HandleIntent` | apps/freemix-studio/src/native.rs:907-983 | a command starts only if the ledger has room |
| `Uncertainty.WorkerRecovery.ResumePendingCommand` | apps/freemix-studio/src/native.rs:1079-1146 | after a reconnect the pending command is settled, absorbed as a failure or dropped, and a snapshot is asked for if the show on screen is uncertain |
| `Uncertainty.WorkerRecovery.HandleReconnect` | apps/freemix-studio/src/native.rs:1017-1068 | wait, pending command and realization flag after each outcome of a reconnect |
| `Uncertainty.FailureIsListed` | apps/freemix-studio/src/native.rs:592-626 | an uncertain failure of the pending command is listed, and the capacity branch is not taken |
| `Uncertainty.NextIsRoomy` | apps/freemix-studio/src/native.rs:799-1146 | every step keeps room for the pending command, keeps every notice, lists the uncertain outcome it reports and nothing else, and starts nothing on a full ledger |
| `Uncertainty.CaptureHappensThere` | apps/freemix-studio/src/native.rs:965-980 | a step that reports a failure changes the ledger exactly as the capture does in the state inside that step |
| `Uncertainty.LedgerNeverOverflows` | apps/freemix-studio/src/native.rs:592-626 | on every run the ledger has at most 8 notices and no command twice, and no capture, in the state in which a step makes it, takes the "reached capacity" branch |
| `Uncertainty.UncertaintyIsNeverForgotten` | apps/freemix-studio/src/native.rs:504-626 | an uncertain outcome reported at any step of a run stays listed however the run continues |
| `Uncertainty.FullLedgerStopsCommands` | apps/freemix-studio/src/native.rs:915-920 | once the ledger is full it never changes and no command is ever started |
| `UncertaintyAnswers.PendingUntilSettled` | apps/freemix-studio/src/native.rs:907-1146 | on every run a command that starts stays pending until a step settles it (success, a terminal status, a failure for good, an unexpected or unrecoverable reconnect, a refused snapshot request), and is pending no more after that step |
| `UncertaintyAnswers.PendingExactly` | apps/freemix-studio/src/native.rs:965-1146 | after any step a command is pending if and only if it was in flight and the step did not settle it |
| `UncertaintyAnswers.WaitsExactly` | apps/freemix-studio/src/native.rs:965-1146 | the worker waits after a failure exactly if it can recover and a wait was granted, and after a connection exactly if it retries or its snapshot request was granted |
| `UncertaintyAnswers.UncertainExactly` | apps/freemix-studio/src/native.rs:965-1146 | what is shown becomes uncertain exactly by an invalidating failure or a reconnect that needs a resync, and certain again by a snapshot |
| `UncertaintyAnswers.LossesDecideTheWait` | apps/freemix-studio/src/native.rs:826-1240 | a loss while idle or at a heartbeat decides only the wait and what is uncertain |
| `UncertaintyAnswers.StartsExactly` | apps/freemix-studio/src/native.rs:907-936 | on every run a command starts exactly if nothing is pending or awaited, the ledger has fewer than 8 notices and the intent can be begun |
| `Mailbox.NextIsFaithful` | apps/freemix-studio/src/native.rs:405-426 | every step of store, notify, take token, take value keeps the mailbox faithful |
| `Mailbox.EveryRunIsFaithful` | apps/freemix-studio/src/native.rs:381-426 | over every interleaving a stored value has a token or a party mid-step, and what is received is an in-order subsequence of what was published |
| `Mailbox.DrainDeliversLatest` | apps/freemixd/src/program_surface.rs:215-252 | after a drain the last value received is the last one published |
| `Mailbox.NoTokenMeansNothingWaiting` | apps/freemixd/src/program_surface.rs:322-330 | no token and nobody mid-step means the last published value was received |
| `Mailbox.NoWakeWithoutNotice` | apps/freemixd/src/program_surface.rs:215-330 | over every interleaving the receiver wakes at most once for each wake-up it is sent, and receives at most one value per wake |
| `Surface.RecreationCoordinator.Request` | apps/freemixd/src/program_surface.rs:277-288 | the newest generation is wanted and an answer for an older one is dropped |
| `Surface.RecreationCoordinator.PrepareAndTake` | apps/freemixd/src/program_surface.rs:294-307 | what is taken answers the pending request |
| `Surface.RecreationCoordinator.Pressure` | apps/freemixd/src/program_surface.rs:309-313 | a refused answer is kept only if it is still wanted |
| `Surface.RecreationCoordinator.Send` | apps/freemixd/src/program_surface.rs:315-319 | an answered request is no longer pending |
| `Surface.ResizeIsTracked` | crates/gpu/fm-gpu/src/presentation.rs:314-385 | resizing keeps the invariant, including a recreation that is re-targeted or suspended |
| `Surface.AcquireIsTracked` | crates/gpu/fm-gpu/src/presentation.rs:444-538 | an acquisition outcome keeps the invariant, including the loss of the surface |
| `Surface.ServiceIsTracked` | apps/freemixd/src/program_surface.rs:404-436 | servicing a replacement installs, discards or asks again without losing the request |
| `Surface.NextIsTracked` | apps/freemixd/src/program_surface.rs:404-436 | every step of either thread keeps the invariant |
| `Surface.GenerationsGrow` | crates/gpu/fm-gpu/src/presentation.rs:314-385 | no step of a running worker takes the generation back |
| `Surface.NoRecreationIsLost` | apps/freemixd/src/program_surface.rs:262-377 | on every run, while the worker wants generation g, a request or response for g is in the slot, at the coordinator or in the channel, nothing exceeds g and the request has its wake-up |
| `Surface.OnlyTheWantedIsInstalled` | apps/freemixd/src/program_surface.rs:356-377 | on every run a response is installed only when its generation is the one wanted at that moment |
| `Surface.OnlyTheDeviceStopsTheWorker` | apps/freemixd/src/program_surface.rs:530-593 | the error for configuring without a surface is unreachable; the worker stops only on a device refusal, a failed creation or exhausted generations |
| `Surface.LostSurfaceComesBack` | apps/freemixd/src/program_surface.rs:810-841 | from every reachable state that waits for a surface a fixed sequence of nine steps installs exactly the wanted generation, unless a failed response was already waiting and stops the worker |
| `SurfaceAnswers.AcquireIsAnswered` | crates/gpu/fm-gpu/src/presentation.rs:444-538 | on every run, with a configured surface: a loss releases it and asks for one of the same extent and generation, an outdated or suboptimal surface is configured again or stops the worker, a success or a timeout changes nothing |
| `SurfaceAnswers.ResizeIsAnswered` | crates/gpu/fm-gpu/src/presentation.rs:314-385 | on every run a new size becomes the wanted one at the next generation, configured if there is a surface and asked for if there is none; an empty size suspends, the size in place changes nothing, and the worker stops exactly on a device refusal or exhausted generations |
| `SurfaceAnswers.ServiceIsAnswered` | apps/freemixd/src/program_surface.rs:404-436 | on every run the wanted replacement is installed and configured or stops the worker, one that is too old makes it ask again, one that is not wanted is dropped |
| `SurfaceAnswers.RequestIsAnswered` | apps/freemixd/src/program_surface.rs:277-319 | on every run the main thread answers the pending request for exactly its generation; a free channel takes the answer and ends the request, a full one leaves both |
| `SurfaceAnswers.RequestIsReceived` | apps/freemixd/src/program_surface.rs:277-288 | on every run a received request is wanted unless a newer one already is, and an answer for an older one is dropped |
| `SurfaceAnswers.OnlyResizeChangesTheExtent` | crates/gpu/fm-gpu/src/presentation.rs:404-600 | on every run no step but a resize changes the wanted extent or its generation |
| `Monitors.DescriptorOrder` | apps/freemixd/src/program_surface.rs:53-80 | exactly one of before, equal and after holds for any two descriptors |
| `Monitors.DescriptorTransitive` | apps/freemixd/src/program_surface.rs:53-80 | the order of descriptors is transitive |
| `Monitors.SortIsStable` | apps/freemixd/src/program_surface.rs:106-108 | the sorted inventory is an ordered permutation that keeps entries with one descriptor in their order |
| `Monitors.SortMonitorEntries` | apps/freemixd/src/program_surface.rs:106-108 | the array ends up as the stable sort of what it held |
| `Monitors.AdjacentCheckIsExact` | apps/freemixd/src/program_surface.rs:122-128 | after sorting, the check of neighbours rejects exactly the inventories with two equal descriptors |
| `Monitors.SelectMonitor` | apps/freemixd/src/program_surface.rs:118-139 | the loops compute the choice and leave the array sorted |
| `Monitors.SelectIgnoresEnumeration` | apps/freemixd/src/program_surface.rs:118-139 | two enumerations of one inventory give the same identity and index or the same error |
| `Monitors.UpdateFollowsPresence` | apps/freemixd/src/program_surface.rs:141-157 | after an update the monitor counts as connected exactly when it is in the inventory, and the change reported is the difference |
| `Monitors.UpdateIgnoresEnumeration` | apps/freemixd/src/program_surface.rs:141-157 | policy and kind of change do not depend on the enumeration, nor does the index if descriptors are distinct |
| `Monitors.MonitorPolicy.UpdateWith` | apps/freemixd/src/program_surface.rs:141-157 | the in-place update computes that policy and change |
| `Monitors.ChangesAlternate` | apps/freemixd/src/program_surface.rs:141-157 | over every run of updates disconnections and reconnections alternate, starting with a disconnection, and the chosen identity never changes |
| `MonitorAnswers.SelectsByRank` | apps/freemixd/src/program_surface.rs:118-139 | the choice is ambiguous exactly if two descriptors are equal, unavailable exactly if there are not that many, and otherwise the monitor with exactly that many others before it |
| `MonitorAnswers.FirstIsLeftmost` | apps/freemixd/src/program_surface.rs:53-80 | index 0 is the leftmost monitor and, of those, the topmost |
| `MonitorAnswers.LeftComesFirst` | apps/freemixd/src/program_surface.rs:53-80 | further left comes first, then higher up, then the lesser name |
| `MonitorAnswers.NamesCompareAtFirstDifference` | apps/freemixd/src/program_surface.rs:53-80 | names compare at their first differing byte, and a name comes before its continuations |
| `MonitorAnswers.ReconnectsAtItsRank` | apps/freemixd/src/program_surface.rs:141-157 | a monitor that comes back is reported where it now stands in the order |
| `Backoff.NewPolicy` | apps/freemix-capture-node/src/broker.rs:395-411 | a policy exists exactly for delays with 0 < initial <= maximum |
| `Backoff.ShiftIsCappedDoubling` | apps/freemix-capture-node/src/broker.rs:423-429 | the saturating shift equals iterated capped doubling if and only if attempt <= 64, initial >= 2 or maximum <= 2^63 |
| `Backoff.ShiftFallsShort` | apps/freemix-capture-node/src/broker.rs:423-429 | initial 1 with the largest maximum at attempt 65: the shift form stays at 2^63 |
| `Backoff.DelayIsBounded` | apps/freemix-capture-node/src/broker.rs:423-429 | every delay lies within initial and maximum; the first is the initial one |
| `Backoff.DelayIsMonotone` | apps/freemix-capture-node/src/broker.rs:423-429 | a later attempt never waits less |
| `Broker.NewBroker` | apps/freemix-capture-node/src/broker.rs:668-690 | a broker exists exactly for a non-blank session and a capacity of 1 to 256 |
| `Broker.CaptureBroker.BeginPermissionRequest` | apps/freemix-capture-node/src/broker.rs:80-87 | one interactive request per permission, and only while it is unknown |
| `Broker.CaptureBroker.PairWith` | apps/freemix-capture-node/src/broker.rs:742-762 | pairs once, or reconnects only the same engine |
| `Broker.CaptureBroker.RecordDisconnect` | apps/freemix-capture-node/src/broker.rs:769-784 | one disconnect per connection, recorded with its delay in a history of 32 |
| `Broker.CaptureBroker.PublishMedia` | apps/freemix-capture-node/src/broker.rs:802-824 | needs an active, connected session, a granted permission, a fresh id and room |
| `Broker.CaptureBroker.ChangePermission` | apps/freemix-capture-node/src/broker.rs:714-735 | any state but granted revokes exactly the publications that rest on it and counts them |
| `Broker.CaptureBroker.LogOut` | apps/freemix-capture-node/src/broker.rs:827-833 | everything is revoked, unpaired and cancelled, and counted |
| `BrokerRun.KeptAndRevoked` | apps/freemix-capture-node/src/broker.rs:362-374 | kept plus revoked is everything, for publications and for leases |
| `BrokerRun.KeepingIsSubsequence` | apps/freemix-capture-node/src/broker.rs:362-374 | exactly the publications that rest on other permissions are kept |
| `BrokerRun.NextIsSafe` | apps/freemix-capture-node/src/broker.rs:714-833 | every call keeps the broker safe |
| `BrokerRun.BrokerIsSafe` | apps/freemix-capture-node/src/broker.rs:668-833 | over all call sequences: permissions granted, ids unique, within the maximum; published equals live plus revoked, leases likewise; a reconnect is pending exactly when disconnected, and each record is attempt 1 with the initial delay; one prompt per permission |
| `BrokerRun.LogoutIsFinal` | apps/freemix-capture-node/src/broker.rs:827-833 | logged out is absorbing: nothing is published, paired or pending again and every session call is refused |
| `BrokerRun.PairingIsFixed` | apps/freemix-capture-node/src/broker.rs:742-762 | the paired identity never changes before logout |
| `BrokerAnswers.StateIsHistory` | apps/freemix-capture-node/src/broker.rs:699-733 | on every sequence of calls the broker is logged out exactly after a logout, each permission is in the state of its last update, and asked for exactly if it was prompted for |
| `BrokerAnswers.PublishesExactly` | apps/freemix-capture-node/src/broker.rs:802-824 | a publication is granted if and only if there was no logout, the engine is connected, the last update of its permission granted it, its id is new and there is room; it then stands behind the others |
| `BrokerAnswers.RefusesToPublishExactly` | apps/freemix-capture-node/src/broker.rs:802-824 | of the reasons that apply, a refusal gives the first |
| `BrokerAnswers.PairsExactly` | apps/freemix-capture-node/src/broker.rs:742-762 | an engine is paired if and only if there was no logout, none is connected and none but this one was paired before |
| `BrokerAnswers.DisconnectsExactly` | apps/freemix-capture-node/src/broker.rs:769-784 | a lost connection is recorded if and only if there was no logout and the engine is connected; it is retried after the initial delay |
| `BrokerAnswers.PromptsExactly` | apps/freemix-capture-node/src/broker.rs:80-87 | the user is prompted if and only if the permission was never decided and never prompted for |
| `BrokerAnswers.UpdatesExactly` | apps/freemix-capture-node/src/broker.rs:714-735 | an update reports the state it replaces and, unless it grants, revokes exactly what rests on the permission |
| `Readers.BufferedInput.FillBuffer` | apps/freemix-plugin-host/src/lib.rs:660-663 | what a fill shows and how the end of the input, a timeout, a failure and an interruption are told apart |
| `Readers.BufferedInput.Consume` | apps/freemix-plugin-host/src/lib.rs:671-672 | a consume drops exactly that many bytes of the input |
| `Readers.ReadControlLine` | apps/freemix-plugin-host/src/lib.rs:656-677 | for every split of the input the reader returns what the one-shot specification says: a line within 4096 bytes, a last unterminated line at the end, else too long or an I/O error |
| `Readers.ReadReadinessRecord` | apps/freemix-studio/src/supervisor.rs:468-514 | for every split: a terminated UTF-8 record within 4096 bytes, nothing if the daemon said nothing, else the matching error; the remaining budget never underflows |
| `ReaderAnswers.ControlLineIsReturned` | apps/freemix-plugin-host/src/lib.rs:656-677 | a control line within 4096 bytes is returned as it is, whatever follows it; a longer one is refused |
| `ReaderAnswers.LastControlLineCounts` | apps/freemix-plugin-host/src/lib.rs:656-677 | an unterminated control line counts exactly if the input is closed and it is within 4096 bytes |
| `ReaderAnswers.RecordIsReturned` | apps/freemix-studio/src/supervisor.rs:468-514 | a valid UTF-8 record within 4096 bytes is returned as it is, whatever follows it; a longer or invalid one is refused |
| `ReaderAnswers.SilenceIsEmpty` | apps/freemix-studio/src/supervisor.rs:468-514 | a daemon that closes without a word gives an empty record; anything else that is not terminated is an error of its own kind |
| `RemoteReader.ReadLine` | apps/freemix-cli/src/remote.rs:456-505 | for every split and every interruption: the first line within 65536 bytes or the error that the whole input calls for |
| `RemoteReader.RemoteSession.Absorb` | apps/freemix-cli/src/remote.rs:422-439 | a status from another server or out of sequence is refused and changes nothing |
| `RemoteReader.RemoteSession.JudgeLine` | apps/freemix-cli/src/remote.rs:492-500 | a line is returned, absorbed as status, or refused |
| `RemoteReader.RemoteSession.ReadUntil` | apps/freemix-cli/src/remote.rs:456-505 | for every split the message returned, the status log and the input left are those of the one-shot specification |
| `RemoteReader.LinesAreReadInOrder` | apps/freemix-cli/src/remote.rs:456-505 | repeated reads of encoded lines are the reads of the messages they encode |
| `RemoteReader.StatusSequencesIncrease` | apps/freemix-cli/src/remote.rs:422-439 | on every input the absorbed status sequences are strictly increasing and only other messages are returned |
| `RemoteReader.EverythingIsReturned` | apps/freemix-cli/src/remote.rs:422-505 | all non-status messages come out in order and all statuses are absorbed if and only if every status is from this server and sequences increase |
| `ReaderAnswers.UndecodableEndsTheRead` | apps/freemix-cli/src/remote.rs:492-500 | a line that cannot be decoded ends the read as undecodable and is gone |
| `ReaderAnswers.MessageIsReturned` | apps/freemix-cli/src/remote.rs:456-505 | a message that is no status is returned and leaves what follows it |
| `ReaderAnswers.StatusIsAbsorbedExactly` | apps/freemix-cli/src/remote.rs:422-505 | a status of this server above the last sequence is noted and the read goes on; any other ends it and is not noted |
| `ReaderAnswers.UnreadableEndsTheRead` | apps/freemix-cli/src/remote.rs:456-505 | a line beyond 65536 bytes is refused undecoded, and a shorter one that does not end is refused for the reason the input ends |
| `Osc.ReadTextIsPadded` | apps/freemix-studio/src/osc.rs:203-215 | a string that is read is followed by exactly its padding |
| `Osc.PaddedTextIsRead` | apps/freemix-studio/src/osc.rs:203-215 | a padded string is read back wherever it stands |
| `Osc.AddressIsCanonical` | apps/freemix-studio/src/osc.rs:183-201 | an address that stands for an action is that action's own |
| `Osc.DecodesExactlyMessages` | apps/freemix-studio/src/osc.rs:176-201 | a datagram decodes to an action if and only if it is the action's padded address and the padded "," tag |
| `Osc.TruncationCreatesNothing` | apps/freemix-studio/src/osc.rs:14-201 | accepted datagrams have 28 to 36 bytes, so one cut off at 128 bytes is never an action |

## Left out

- Sockets, threads, sleeps, clocks, GPU, window system and process control: only their answers appear, as parameters of steps. A deadline that strikes before available input is read is an input that ends earlier with a timeout.
- Authorization denials, which the daemon persists outside the command path modelled here, and native media: the wall-clock frame advance during replay and the checkpoint of a native session.
- Abandoning a journal to its checkpoint (`abandon_to_checkpoint`): an explicit operator action that discards work.
- SQLite and the file system: a disk is a manifest, a checkpoint row and a list of batches; each save, advance, truncation and append is atomic, and checksums and corrupt records are not modelled.
- Inbound decoding and admission limits of a peer, the session's own quotas (the `admitted` answers), the per-pass budgets of the scheduler and its accept loop. Every order of steps is allowed, which includes the scheduler's.
- Intents other than the manual position and the input audio strip are opaque functions of the show; `resolve_input_move`, overlays and `intent_payload` are not modelled.
- Requests still in the channel when the studio's worker exits count as waiting, not as rejected.
- Presentation frames, telemetry, the outstanding present of `PresentationLifecycle` and its out-of-memory outcome, which the daemon never reports; its resize, acquisition and recreation transitions are modelled.
- The platform's stable sort is a function with a proof of order, permutation and stability, not the library's algorithm. A monitor's name is compared by its UTF-8 bytes.
- UTF-8 validation is a parameter; for OSC it is only assumed to accept ASCII.
- Error message text, display formatting, argument parsing, web models, the DSP host, scene rendering and diagnostics are not modelled.
- `PeerRun` describes one peer; that peers do not share queues is taken from the code, not proved.
- PeerFraming.EveryPoliteRunIsFramed: holds for sockets that take nothing of a second record after a short write in one pass, because the code breaks the framing otherwise (`PeerFraming.PassKeepsFraming` states the exact condition).
- Surface.LostSurfaceComesBack: proved for one schedule, in which the monitor is connected, new creations and configurations succeed and no new size arrives; that the real threads take these steps is not modelled.
