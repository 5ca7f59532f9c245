// What the journal answers: when a command is refused, when an accepted one becomes durable,
// when a checkpoint is due, and which disks can be read back.
module JournalAnswers {
  import opened Basics
  import opened Codec
  import opened Engine
  import opened Journal
  import opened CrashSafety

  // ----- commands -----

  // A new command is refused exactly if its deadline has passed, if it expects another revision,
  // if the mutation itself is rejected or if the revisions are used up; a known one is answered
  // from its receipt.
  lemma RefusedExactly(env: Environment, project: StoredProject, command: CommandMessage, now: u64)
    ensures var execution, revision := Execute(env, project, command, now), project.position.revision;
            && (execution.Replayed? <==> command.idempotencyKey in project.receipts)
            && (execution.Prepared? ==>
                  (!execution.accepted <==>
                    || (command.deadlineMs.Some? && command.deadlineMs.value < now)
                    || (command.expectedRevision.Some? && command.expectedRevision.value != revision)
                    || env.decide(project.show, project.position, command, now).Reject?
                    || revision == U64_MAX))
  {
  }

  // Acceptance installs the decided show and position at the next revision; a refusal changes
  // nothing; both add the one receipt that says so.
  lemma OutcomeExactly(env: Environment, project: StoredProject, command: CommandMessage, now: u64)
    requires Execute(env, project, command, now).Prepared?
    ensures var execution, revision := Execute(env, project, command, now), project.position.revision;
            var updated := execution.updated;
            if execution.accepted then
              var decision := env.decide(project.show, project.position, command, now);
              && decision.Accept? && updated.show == decision.show
              && updated.position == decision.position.(revision := revision + 1)
              && updated.receipts == project.receipts[command.idempotencyKey := AcceptedReceipt(command.id, revision + 1)]
            else
              && updated.show == project.show && updated.position == project.position
              && updated.receipts == project.receipts[command.idempotencyKey := RejectedReceipt(command.id, revision)]
  {
  }

  // ----- recording -----

  // Faults strike only calls that are made: the checkpoint is called only when 64 mutations
  // have gathered, the append always.
  predicate NoFaultStrikes(daemon: Daemon, faults: Faults) {
    (daemon.store.pending < 64 || faults.checkpoint.NoFault?) && !faults.appendFails
  }

  // The command's line exists and its record, 28 bytes of row and 60 of header around the line,
  // is within 1 MiB.
  predicate Recordable(env: Environment, command: CommandMessage) {
    var line := env.codec.encodeLine(Command(command));
    line.Some? && 28 + 60 + |line.value| <= 1_048_576
  }

  // The next sequence and revision fit a signed 64-bit row.
  predicate RowsLeft(daemon: Daemon) {
    && daemon.store.writer.headSequence < 0x7FFF_FFFF_FFFF_FFFF
    && daemon.durable.position.revision < 0x7FFF_FFFF_FFFF_FFFF
  }

  lemma RetainedLast(batches: seq<MutationBatch>, batch: MutationBatch)
    requires forall i :: 0 <= i < |batches| ==> RecordSize(batches[i]) <= MAX_JOURNAL_RECORD_BYTES
    requires |batches| < 64 && RecordSize(batch) <= MAX_JOURNAL_RECORD_BYTES
    ensures RetainedBytes(batches + [batch]) <= MAX_UNAPPLIED_JOURNAL_BYTES
  {
    hide RecordSize, RetainedBytes;
    var grown := batches + [batch];
    forall i | 0 <= i < |grown| ensures RecordSize(grown[i]) <= MAX_JOURNAL_RECORD_BYTES {
      assert grown[i] == if i < |batches| then batches[i] else batch;
    }
    RetainedBytesBound(grown);
    assert |grown| <= 64;
  }

  lemma EncodedExactly(env: Environment, command: CommandMessage, now: u64, position: ProjectPosition)
    ensures var payload := EncodeMutation(env.codec, command, now, position);
            && (payload.Some? <==> env.codec.encodeLine(Command(command)).Some?)
            && (payload.Some? ==> |payload.value| == 60 + |env.codec.encodeLine(Command(command)).value|)
  {
  }

  // What a valid daemon's writer says about its disk.
  lemma ValidFacts(env: Environment, daemon: Daemon)
    requires Valid(env, daemon)
    ensures var writer := daemon.store.writer;
            && writer.headRevision == daemon.durable.position.revision
            && writer.headSequence == writer.checkpointSequence + |writer.disk.batches|
            && writer.headRevision == writer.checkpointRevision + |writer.disk.batches|
            && writer.headSequence <= MAX_ROW && writer.headRevision <= MAX_ROW
            && |writer.disk.batches| <= daemon.store.pending
            && (forall i :: 0 <= i < |writer.disk.batches| ==>
                  RecordSize(writer.disk.batches[i]) <= MAX_JOURNAL_RECORD_BYTES)
  {
    hide Reaches;
  }

  // An append right after at most 63 others succeeds exactly in these terms.
  lemma AppendsExactly(env: Environment, store: Store, command: CommandMessage, now: u64,
                       durable: StoredProject, updated: StoredProject, fails: bool)
    requires Valid(env, Daemon(store, durable)) && store.pending < 64
    requires updated.position.revision == durable.position.revision + 1
    ensures var done := Appended(env, store, command, now, durable, updated, fails);
            && (done.ok <==> Recordable(env, command) && RowsLeft(Daemon(store, durable)) && !fails)
            && (done.ok ==> done.after.pending == store.pending + 1)
  {
    ValidFacts(env, Daemon(store, durable));
    EncodedExactly(env, command, now, updated.position);
    var payload := EncodeMutation(env.codec, command, now, updated.position);
    hide Valid, EncodeMutation;
    if payload.Some? && store.writer.headSequence < U64_MAX {
      var batch := MutationBatch(store.writer.headSequence + 1, durable.position.revision,
                                 updated.position.revision, payload.value);
      assert RecordSize(batch) == 28 + |payload.value|;
      if RecordSize(batch) <= MAX_JOURNAL_RECORD_BYTES {
        RetainedLast(store.writer.disk.batches, batch);
      }
      hide RetainedBytes;
    }
  }

  // A checkpoint of the project at hand succeeds exactly if nothing fails, and then the
  // manifest is that project, no batch is left and nothing is pending.
  lemma CheckpointsExactly(env: Environment, daemon: Daemon, project: StoredProject, fault: CheckpointFault)
    requires Valid(env, daemon) && project.position.revision == daemon.durable.position.revision
    ensures var done := Checkpointed(daemon.store, project, fault);
            && (done.ok <==> fault.NoFault?)
            && (done.ok ==>
                  && done.after.pending == 0
                  && done.after.writer.disk.manifest == project && done.after.writer.disk.batches == []
                  && done.after.writer.headSequence == daemon.store.writer.headSequence)
            && (!done.ok ==> done.after.pending == daemon.store.pending)
            && (fault.SaveFails? ==> done.after == daemon.store)
  {
    ValidFacts(env, daemon);
    assert Holds(env, daemon.store.writer.disk, daemon.durable) && WriterDescribesDisk(daemon.store.writer);
    HeadOfHeldDisk(env, daemon.store.writer, daemon.durable);
    hide Valid, After, Holds, RecordSize;
  }

  // Recording an accepted command succeeds, and its state is durable, if and only if no fault
  // of a call it makes strikes, its record can be written and the rows have numbers left.
  lemma AcceptedIsDurableExactly(env: Environment, daemon: Daemon, command: CommandMessage, now: u64, faults: Faults)
    requires Invertible(env.codec) && Valid(env, daemon)
    requires Execute(env, daemon.durable, command, now).Prepared?
    requires Execute(env, daemon.durable, command, now).accepted
    ensures var updated, effect := Execute(env, daemon.durable, command, now).updated,
                                   Perform(env, daemon, Submit(command, now, faults));
            && (effect.accepted <==> NoFaultStrikes(daemon, faults) && Recordable(env, command) && RowsLeft(daemon))
            && (effect.accepted ==>
                  && effect.after.durable == updated
                  && Holds(env, effect.after.store.writer.disk, updated)
                  && effect.after.store.pending == (if daemon.store.pending >= 64 then 1 else daemon.store.pending + 1))
            && (!effect.accepted ==> effect.after.durable == daemon.durable)
  {
    var updated := Execute(env, daemon.durable, command, now).updated;
    AcceptanceMovesOne(env, daemon.durable, command, now);
    AcceptanceIsSafe(env, daemon, command, now, faults);
    assert SingleRevisionStep(daemon.durable, updated).Some?;
    hide Execute, Valid, Holds, Invertible, SingleRevisionStep, Checkpointed, Appended, Recordable, RowsLeft;
    assert Execute(env, daemon.durable, command, now) == Prepared(updated, true);
    RecordsExactly(env, daemon, command, now, updated, faults);
    hide Recorded;
    ValidHolds(env, Perform(env, daemon, Submit(command, now, faults)).after);
  }

  lemma ValidHolds(env: Environment, daemon: Daemon)
    requires Valid(env, daemon)
    ensures Holds(env, daemon.store.writer.disk, daemon.durable)
  {
    hide Holds;
  }

  lemma RecordsExactly(env: Environment, daemon: Daemon, command: CommandMessage, now: u64,
                       updated: StoredProject, faults: Faults)
    requires Invertible(env.codec) && Valid(env, daemon)
    requires Execute(env, daemon.durable, command, now) == Prepared(updated, true)
    requires SingleRevisionStep(daemon.durable, updated).Some?
    ensures var recorded := Recorded(env, daemon.store, command, now, daemon.durable, updated, faults);
            && (recorded.ok <==> NoFaultStrikes(daemon, faults) && Recordable(env, command) && RowsLeft(daemon))
            && (recorded.ok ==>
                  recorded.after.pending == (if daemon.store.pending >= 64 then 1 else daemon.store.pending + 1))
  {
    assert updated.position.revision == daemon.durable.position.revision + 1;
    hide Execute, Valid, Holds, Invertible, SingleRevisionStep, Checkpointed, Appended, Recordable;
    if daemon.store.pending >= 64 {
      CheckpointsExactly(env, daemon, daemon.durable, faults.checkpoint);
      var checkpointed := Checkpointed(daemon.store, daemon.durable, faults.checkpoint);
      if checkpointed.ok {
        CheckpointedIsValid(env, daemon, faults.checkpoint);
        AppendsExactly(env, checkpointed.after, command, now, daemon.durable, updated, faults.appendFails);
      }
    } else {
      AppendsExactly(env, daemon.store, command, now, daemon.durable, updated, faults.appendFails);
    }
  }

  lemma CheckpointedIsValid(env: Environment, daemon: Daemon, fault: CheckpointFault)
    requires Valid(env, daemon) && Checkpointed(daemon.store, daemon.durable, fault).ok
    ensures Valid(env, Daemon(Checkpointed(daemon.store, daemon.durable, fault).after, daemon.durable))
  {
    CheckpointImages(env, daemon.store, daemon.durable, daemon.durable, fault);
    hide Holds, Core, Checkpointed, WriterDescribesDisk;
  }

  // Recording a refused command counts it, and only the 64th mutation since the last checkpoint
  // writes a manifest; the refusal is reported unless that write fails.
  lemma RefusalIsCountedExactly(env: Environment, daemon: Daemon, command: CommandMessage, now: u64, faults: Faults)
    requires Valid(env, daemon)
    requires Execute(env, daemon.durable, command, now).Prepared?
    requires !Execute(env, daemon.durable, command, now).accepted
    ensures var updated, effect := Execute(env, daemon.durable, command, now).updated,
                                   Perform(env, daemon, Submit(command, now, faults));
            var due := daemon.store.pending + 1 >= 64;
            && (effect.after.durable == updated <==> !due || faults.checkpoint.NoFault?)
            && (!due ==> effect.images == [] && effect.after.store.pending == daemon.store.pending + 1)
            && (due && faults.checkpoint.NoFault? ==>
                  && effect.after.store.pending == 0 && effect.after.store.writer.disk.manifest == updated
                  && effect.after.store.writer.disk.batches == [])
  {
    var updated := Execute(env, daemon.durable, command, now).updated;
    OutcomeExactly(env, daemon.durable, command, now);
    assert updated != daemon.durable by {
      RefusedExactly(env, daemon.durable, command, now);
      assert command.idempotencyKey in updated.receipts && command.idempotencyKey !in daemon.durable.receipts;
    }
    assert SingleRevisionStep(daemon.durable, updated).None?;
    var counted := Daemon(daemon.store.(pending := SaturatingIncrement(daemon.store.pending)), daemon.durable);
    CountedIsValid(env, daemon);
    hide Execute, Valid, SingleRevisionStep, Checkpointed, Appended;
    CheckpointsExactly(env, counted, updated, faults.checkpoint);
  }

  lemma CountedIsValid(env: Environment, daemon: Daemon)
    requires Valid(env, daemon)
    ensures Valid(env, daemon.(store := daemon.store.(pending := SaturatingIncrement(daemon.store.pending))))
  {
    hide Holds, WriterDescribesDisk;
  }

  // Settling succeeds exactly if nothing was pending or nothing fails, and a settled project is
  // its manifest, receipts and all.
  lemma SettlesExactly(env: Environment, daemon: Daemon, fault: CheckpointFault)
    requires Valid(env, daemon)
    ensures var settled := Settled(daemon.store, daemon.durable, fault);
            && (settled.ok <==> daemon.store.pending == 0 || fault.NoFault?)
            && (settled.ok ==>
                  && settled.after.pending == 0
                  && settled.after.writer.disk.manifest == daemon.durable
                  && settled.after.writer.disk.batches == [])
  {
    CheckpointsExactly(env, daemon, daemon.durable, fault);
    assert daemon.store.pending == 0 ==>
             daemon.store.writer.disk.manifest == daemon.durable && daemon.store.writer.disk.batches == [];
    hide Valid, Checkpointed;
  }

  // A journal can be created exactly if its sequence and revision fit a signed 64-bit row, and it
  // starts with the project as its manifest, nothing pending and nothing to replay.
  lemma CreatesExactly(project: StoredProject, sequence: u64)
    ensures var created := Created(project, sequence);
            && (created.Some? <==>
                  sequence <= 0x7FFF_FFFF_FFFF_FFFF && project.position.revision <= 0x7FFF_FFFF_FFFF_FFFF)
            && (created.Some? ==>
                  var store := created.value.daemon.store;
                  && created.value.daemon.durable == project && created.value.history == []
                  && store.pending == 0 && store.writer.headSequence == sequence
                  && store.writer.disk == Disk(project, sequence, project.position.revision, []))
  {
  }

  // On every run, with crashes anywhere: a command that is accepted becomes durable and is
  // acknowledged if and only if nothing that it calls fails, its record can be written and the
  // rows have numbers left; a settle without a fault leaves the project as its manifest.
  lemma EveryRunGoesOn(env: Environment, project: StoredProject, sequence: u64, events: seq<Event>,
                       command: CommandMessage, now: u64, faults: Faults)
    requires Created(project, sequence).Some?
    requires Invertible(env.codec)
    ensures Run(env, Created(project, sequence).value, events).Some?
    ensures var system := Run(env, Created(project, sequence).value, events).value;
            var execution := Execute(env, system.daemon.durable, command, now);
            var after := Step(env, system, Completed(Submit(command, now, faults))).value;
            var settled := Step(env, system, Completed(SettleNow(NoFault))).value;
            && (execution.Prepared? && execution.accepted ==>
                  (after.history == system.history + [Entry(command, now, true)] <==>
                    NoFaultStrikes(system.daemon, faults) && Recordable(env, command) && RowsLeft(system.daemon)))
            && settled.daemon.store.pending == 0
            && settled.daemon.store.writer.disk.manifest == system.daemon.durable
  {
    EveryRunIsFaithful(env, project, sequence, events);
    var system := Run(env, Created(project, sequence).value, events).value;
    FaithfulIsValid(env, project, system);
    hide Run, Faithful, Created, Valid, Invertible, Holds;
    SettlesExactly(env, system.daemon, NoFault);
    hide Settled, Recorded, Recordable, RowsLeft, NoFaultStrikes;
    if Execute(env, system.daemon.durable, command, now).Prepared?
       && Execute(env, system.daemon.durable, command, now).accepted {
      AcceptedIsDurableExactly(env, system.daemon, command, now, faults);
    }
    hide Execute;
    assert |system.history + [Entry(command, now, true)]| != |system.history|;
  }

  // ----- reading back -----

  // A disk can be read exactly if its batches continue the checkpoint within the limits and the
  // manifest is not older than the checkpoint and sits on it or on a batch, or nothing is left
  // that it could miss; and what is read is what is newer than the manifest.
  lemma ScansExactly(disk: Disk)
    ensures var scan, at := ReadScan(disk), disk.manifest.position.revision;
            && (scan.Ok? <==>
                  && disk.checkpointRevision <= at
                  && |disk.batches| <= 65_536 && RetainedBytes(disk.batches) <= 134_217_728
                  && Chained(disk.batches, disk.checkpointSequence, disk.checkpointRevision)
                  && (at <= disk.checkpointRevision + |disk.batches| || disk.batches == []))
            && (scan.Ok? ==>
                  && scan.value.revision == at
                  && scan.value.batches <= disk.batches[|disk.batches| - |scan.value.batches|..]
                  && (forall i :: 0 <= i < |disk.batches| ==>
                        (disk.batches[i].revision > at <==> i >= |disk.batches| - |scan.value.batches|)))
  {
    var at := disk.manifest.position.revision;
    if Chained(disk.batches, disk.checkpointSequence, disk.checkpointRevision) && disk.checkpointRevision < at {
      if at <= disk.checkpointRevision + |disk.batches| {
        IndexInChain(disk.batches, disk.checkpointSequence, disk.checkpointRevision, at - disk.checkpointRevision - 1);
      } else if disk.batches != [] {
        assert IndexOfRevision(disk.batches, at).None?;
      }
    }
    hide IndexOfRevision, RetainedBytes;
  }

  // Every refusal to read names its reason, the manifest's age first.
  lemma ScanErrorsExactly(disk: Disk)
    ensures var scan, at := ReadScan(disk), disk.manifest.position.revision;
            var chained := Chained(disk.batches, disk.checkpointSequence, disk.checkpointRevision);
            var within := |disk.batches| <= 65_536 && RetainedBytes(disk.batches) <= 134_217_728;
            && (scan == Err(ManifestBehindJournal) <==> at < disk.checkpointRevision)
            && (scan == Err(UnappliedLimit) <==> at >= disk.checkpointRevision && !within)
            && (scan == Err(Gap) <==> at >= disk.checkpointRevision && within && !chained)
            && (scan == Err(JournalBehindManifest) <==>
                  within && chained && disk.batches != [] && at > disk.checkpointRevision + |disk.batches|)
  {
    ScansExactly(disk);
    hide IndexOfRevision, RetainedBytes, Chained;
  }

  // A replayed batch lands on the revision of its row and the position it recorded, or the
  // recovery stops there.
  lemma ReplaysExactly(env: Environment, project: StoredProject, batch: MutationBatch)
    ensures var replayed, decoded := ReplayOne(env, project, batch), DecodeMutation(env.codec, batch.payload);
            && (replayed == Err(Undecodable) <==> decoded.Err?)
            && (replayed == Err(RevisionMismatch) <==> decoded.Ok? && decoded.value.position.revision != batch.revision)
            && (replayed.Ok? ==>
                  && decoded.Ok? && replayed.value.position == decoded.value.position
                  && replayed.value.position.revision == batch.revision)
  {
    hide DecodeMutation, Execute;
  }
}
