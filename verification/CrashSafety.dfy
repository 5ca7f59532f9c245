// Crash safety of the served project: every run of submissions, settlements and crashes,
// with a crash allowed after any durable write of any call and of any recovery.
module CrashSafety {
  import opened Basics
  import opened Codec
  import opened Engine
  import opened Journal

  // ----- what a good disk is -----

  // The disk holds `project` up to refused receipts: its batches continue the checkpoint,
  // the manifest sits on one of them, and replaying what is newer reaches the project.
  ghost predicate Holds(env: Environment, disk: Disk, project: StoredProject) {
    InPlace(disk, project.position.revision) && Reaches(env, disk, project)
  }

  // The batches continue the checkpoint up to `revision`, and the manifest sits on one of them.
  ghost predicate InPlace(disk: Disk, revision: nat) {
    && Chained(disk.batches, disk.checkpointSequence, disk.checkpointRevision)
    && |disk.batches| <= MAX_MUTATIONS_PER_CHECKPOINT
    && (forall i :: 0 <= i < |disk.batches| ==> RecordSize(disk.batches[i]) <= MAX_JOURNAL_RECORD_BYTES)
    && revision == disk.checkpointRevision + |disk.batches|
    && disk.checkpointRevision <= disk.manifest.position.revision <= revision
    && InRows(disk)
  }

  // The checkpoint and every batch fit the database's integers.
  predicate InRows(disk: Disk) {
    && disk.checkpointSequence + |disk.batches| <= MAX_ROW
    && disk.checkpointRevision + |disk.batches| <= MAX_ROW
  }

  ghost predicate Reaches(env: Environment, disk: Disk, project: StoredProject)
    requires disk.checkpointRevision <= disk.manifest.position.revision <= disk.checkpointRevision + |disk.batches|
  {
    var replayed := Replay(env, disk.manifest, Unapplied(disk));
    replayed.Ok? && Core(replayed.value) == Core(project)
  }

  function Unapplied(disk: Disk): (batches: seq<MutationBatch>)
    requires disk.checkpointRevision <= disk.manifest.position.revision <= disk.checkpointRevision + |disk.batches|
  {
    disk.batches[disk.manifest.position.revision - disk.checkpointRevision..]
  }

  lemma {:induction false} RetainedBytesBound(batches: seq<MutationBatch>)
    requires forall i :: 0 <= i < |batches| ==> RecordSize(batches[i]) <= MAX_JOURNAL_RECORD_BYTES
    ensures RetainedBytes(batches) <= |batches| * MAX_JOURNAL_RECORD_BYTES
  {
    if batches != [] {
      RetainedBytesBound(batches[..|batches| - 1]);
    }
  }

  // A disk that holds a project never trips a limit or a consistency check when it is read.
  lemma ScanOfHeldDisk(env: Environment, disk: Disk, project: StoredProject)
    requires Holds(env, disk, project)
    ensures ReadScan(disk).Ok?
    ensures ReadScan(disk).value.batches == Unapplied(disk)
    ensures ReadScan(disk).value.revision == disk.manifest.position.revision
    ensures ReadScan(disk).value.sequence ==
              disk.checkpointSequence + (disk.manifest.position.revision - disk.checkpointRevision)
    ensures Chained(Unapplied(disk), ReadScan(disk).value.sequence, ReadScan(disk).value.revision)
  {
    RetainedBytesBound(disk.batches);
    hide Replay, Core, RecordSize, RetainedBytes, ReadScan, Chained;
    ScanOfChain(disk);
  }

  lemma ScanOfChain(disk: Disk)
    requires Chained(disk.batches, disk.checkpointSequence, disk.checkpointRevision)
    requires |disk.batches| <= MAX_UNAPPLIED_JOURNAL_BATCHES
    requires RetainedBytes(disk.batches) <= MAX_UNAPPLIED_JOURNAL_BYTES
    requires disk.checkpointRevision <= disk.manifest.position.revision <= disk.checkpointRevision + |disk.batches|
    ensures ReadScan(disk).Ok?
    ensures ReadScan(disk).value.batches == Unapplied(disk)
    ensures ReadScan(disk).value.revision == disk.manifest.position.revision
    ensures ReadScan(disk).value.sequence ==
              disk.checkpointSequence + (disk.manifest.position.revision - disk.checkpointRevision)
    ensures Chained(Unapplied(disk), ReadScan(disk).value.sequence, ReadScan(disk).value.revision)
  {
    var applied := disk.manifest.position.revision - disk.checkpointRevision;
    ChainTail(disk.batches, disk.checkpointSequence, disk.checkpointRevision, applied);
    hide Chained, RetainedBytes, ReadScan;
    if applied > 0 {
      ScanBeyond(disk, applied - 1);
    } else {
      ScanAtCheckpoint(disk);
      assert disk.batches[0..] == disk.batches;
    }
  }

  lemma ScanAtCheckpoint(disk: Disk)
    requires Chained(disk.batches, disk.checkpointSequence, disk.checkpointRevision)
    requires |disk.batches| <= MAX_UNAPPLIED_JOURNAL_BATCHES
    requires RetainedBytes(disk.batches) <= MAX_UNAPPLIED_JOURNAL_BYTES
    requires disk.manifest.position.revision == disk.checkpointRevision
    ensures ReadScan(disk) == Ok(Scan(disk.checkpointSequence, disk.checkpointRevision, disk.batches))
  {
    hide Chained, RetainedBytes, IndexOfRevision;
  }

  lemma ScanBeyond(disk: Disk, index: nat)
    requires Chained(disk.batches, disk.checkpointSequence, disk.checkpointRevision)
    requires |disk.batches| <= MAX_UNAPPLIED_JOURNAL_BATCHES
    requires RetainedBytes(disk.batches) <= MAX_UNAPPLIED_JOURNAL_BYTES
    requires index < |disk.batches| && disk.manifest.position.revision == disk.checkpointRevision + 1 + index
    ensures ReadScan(disk).Ok? && ReadScan(disk).value.sequence == disk.checkpointSequence + 1 + index
    ensures ReadScan(disk).value.revision == disk.manifest.position.revision
    ensures ReadScan(disk).value.batches == disk.batches[index + 1..]
  {
    IndexInChain(disk.batches, disk.checkpointSequence, disk.checkpointRevision, index);
    hide Chained, RetainedBytes, IndexOfRevision;
  }

  lemma ChainTail(batches: seq<MutationBatch>, sequence: nat, revision: nat, count: nat)
    requires Chained(batches, sequence, revision) && count <= |batches|
    ensures Chained(batches[count..], sequence + count, revision + count)
  {
    forall i | 0 <= i < |batches| - count ensures batches[count..][i] == batches[count + i] {
    }
  }

  lemma IndexInChain(batches: seq<MutationBatch>, sequence: nat, revision: nat, index: nat)
    requires Chained(batches, sequence, revision) && index < |batches|
    ensures IndexOfRevision(batches, revision + 1 + index) == Some(index)
    ensures batches[index].sequence == sequence + 1 + index
  {
    assert batches[index].revision == revision + 1 + index;
  }

  // Recovery reaches exactly the held project, up to refused receipts.
  lemma HeldDiskRecovers(env: Environment, disk: Disk, project: StoredProject)
    requires Holds(env, disk, project)
    ensures Recover(env, disk).Ok?
    ensures Core(Recover(env, disk).value) == Core(project)
  {
    ScanOfHeldDisk(env, disk, project);
  }

  // Replaying chained batches moves the revision one by one and adds no refusal.
  lemma {:induction false} ReplayAddsNoRefusal(
    env: Environment, manifest: StoredProject, batches: seq<MutationBatch>, sequence: nat)
    requires Chained(batches, sequence, manifest.position.revision)
    requires Replay(env, manifest, batches).Ok?
    ensures var project := Replay(env, manifest, batches).value;
            && project.position.revision == manifest.position.revision + |batches|
            && (forall k :: k in project.receipts && project.receipts[k].RejectedReceipt? ==> k in manifest.receipts)
  {
    if batches != [] {
      ReplayAddsNoRefusal(env, manifest, batches[..|batches| - 1], sequence);
    }
  }

  lemma {:induction false} NothingAfterHead(batches: seq<MutationBatch>, sequence: nat)
    requires forall i :: 0 <= i < |batches| ==> batches[i].sequence <= sequence
    ensures After(batches, sequence) == []
  {
    if batches != [] {
      NothingAfterHead(batches[1..], sequence);
    }
  }

  // ----- the daemon -----

  datatype Daemon = Daemon(store: Store, durable: StoredProject)

  datatype Operation =
    | Submit(command: CommandMessage, now: u64, faults: Faults)
    | SettleNow(fault: CheckpointFault)

  // `accepted` says that the caller was told the command was accepted.
  datatype Effect = Effect(after: Daemon, accepted: bool, images: seq<Disk>)

  function Perform(env: Environment, daemon: Daemon, operation: Operation): (effect: Effect) {
    match operation
    case SettleNow(fault) =>
      var settled := Settled(daemon.store, daemon.durable, fault);
      Effect(daemon.(store := settled.after), false, settled.images)
    case Submit(command, now, faults) =>
      match Execute(env, daemon.durable, command, now)
      case Replayed => Effect(daemon, false, [])
      case Prepared(updated, accepted) =>
        var recorded := Recorded(env, daemon.store, command, now, daemon.durable, updated, faults);
        if recorded.ok then Effect(Daemon(recorded.after, updated), accepted, recorded.images)
        else Effect(daemon.(store := recorded.after), false, recorded.images)
  }

  predicate WriterDescribesDisk(writer: Writer) {
    && writer.checkpointSequence == writer.disk.checkpointSequence
    && writer.checkpointRevision == writer.disk.checkpointRevision
    && writer.headSequence == writer.disk.checkpointSequence + |writer.disk.batches|
    && writer.headRevision == writer.disk.checkpointRevision + |writer.disk.batches|
  }

  // The invariant of a running daemon. A failed checkpoint of a refused command can leave a
  // receipt in the manifest that the daemon never installed; the pending count then stays at
  // the checkpoint bound, which is what keeps that receipt away from any later append.
  ghost predicate Valid(env: Environment, daemon: Daemon) {
    var disk := daemon.store.writer.disk;
    && WriterDescribesDisk(daemon.store.writer)
    && Holds(env, disk, daemon.durable)
    && |disk.batches| <= daemon.store.pending
    && (daemon.store.pending < MAX_MUTATIONS_PER_CHECKPOINT ==>
          disk.manifest.receipts.Keys <= daemon.durable.receipts.Keys)
    && (daemon.store.pending == 0 ==> disk.manifest == daemon.durable && disk.batches == [])
  }

  lemma SavedManifestHolds(env: Environment, disk: Disk, project: StoredProject, saved: StoredProject)
    requires Holds(env, disk, project)
    requires Core(saved) == Core(project)
    ensures Holds(env, disk.(manifest := saved), project)
  {
    CoresShareState(saved, project);
    hide Chained, RecordSize, Core, Execute, ReplayOne;
    var after := disk.(manifest := saved);
    assert InPlace(after, project.position.revision);
    NothingUnapplied(env, after, project);
  }

  // A manifest at the head has nothing to replay.
  lemma NothingUnapplied(env: Environment, disk: Disk, project: StoredProject)
    requires disk.manifest.position.revision == disk.checkpointRevision + |disk.batches|
    requires Core(disk.manifest) == Core(project)
    ensures Reaches(env, disk, project)
  {
    assert Unapplied(disk) == [];
    hide ReplayOne, Core;
  }

  // Every image of a checkpoint of (a project with the core of) the held project still holds it.
  lemma CheckpointImages(env: Environment, store: Store, durable: StoredProject, project: StoredProject,
                         fault: CheckpointFault)
    requires WriterDescribesDisk(store.writer)
    requires Holds(env, store.writer.disk, durable)
    requires Core(project) == Core(durable)
    ensures var done := Checkpointed(store, project, fault);
            && WriterDescribesDisk(done.after.writer)
            && Holds(env, done.after.writer.disk, durable)
            && (forall i :: 0 <= i < |done.images| ==> Holds(env, done.images[i], durable))
            && (done.images == [] ==> done.after == store)
            && (done.images != [] ==> done.after.writer.disk == done.images[|done.images| - 1])
            && |done.after.writer.disk.batches| <= |store.writer.disk.batches|
            && (done.ok ==> done.after.pending == 0 && done.after.writer.disk.manifest == project
                            && done.after.writer.disk.batches == [])
            && (!done.ok ==> done.after.pending == store.pending)
            && (done.after.writer.disk.manifest == project
                || done.after.writer.disk.manifest == store.writer.disk.manifest)
  {
    var writer, done := store.writer, Checkpointed(store, project, fault);
    var saved := writer.disk.(manifest := project);
    var compacted := Disk(project, writer.headSequence, project.position.revision, []);
    hide *;
    HeadOfHeldDisk(env, writer, durable);
    CoresShareState(project, durable);
    CompactedDiskHolds(env, durable, project, writer.headSequence);
    CheckpointEffect(store, project, fault);
    SavedManifestHolds(env, writer.disk, durable, project);
    HeldDiskIsBounded(env, writer.disk, durable);
  }

  lemma HeldDiskIsBounded(env: Environment, disk: Disk, durable: StoredProject)
    requires Holds(env, disk, durable)
    ensures |disk.batches| <= MAX_MUTATIONS_PER_CHECKPOINT
  {
    hide Reaches;
  }

  // What a checkpoint at the head leaves, without a word on what the disks hold.
  lemma CheckpointEffect(store: Store, project: StoredProject, fault: CheckpointFault)
    requires WriterDescribesDisk(store.writer) && store.writer.headRevision == project.position.revision
    requires After(store.writer.disk.batches, store.writer.headSequence) == []
    ensures var writer, done := store.writer, Checkpointed(store, project, fault);
            var saved := writer.disk.(manifest := project);
            var compacted := Disk(project, writer.headSequence, project.position.revision, []);
            && WriterDescribesDisk(done.after.writer)
            && done.after.pending == (if done.ok then 0 else store.pending)
            && (|| (done.after == store && !done.ok && done.images == [])
                || (done.after.writer.disk == saved && !done.ok && done.images == [saved])
                || (done.after.writer.disk == compacted && done.images == [saved, compacted]))
  {
    var writer := store.writer;
    CheckpointCases(writer, project, fault);
    WriterFollows(writer, writer.disk.(manifest := project),
                  Disk(project, writer.headSequence, project.position.revision, []));
    hide After, CheckpointAndCompact, WriterDescribesDisk;
  }

  lemma WriterFollows(writer: Writer, saved: Disk, compacted: Disk)
    requires WriterDescribesDisk(writer) && saved == writer.disk.(manifest := saved.manifest)
    requires compacted == Disk(saved.manifest, writer.headSequence, saved.manifest.position.revision, [])
    requires writer.headRevision == saved.manifest.position.revision
    ensures WriterDescribesDisk(writer.(disk := saved))
    ensures WriterDescribesDisk(writer.(disk := compacted, checkpointSequence := writer.headSequence,
                                        checkpointRevision := saved.manifest.position.revision))
  {
  }

  // How far a checkpoint at the head gets: nothing, the saved manifest, or the whole of it.
  lemma CheckpointCases(writer: Writer, project: StoredProject, fault: CheckpointFault)
    requires After(writer.disk.batches, writer.headSequence) == []
    ensures var done := CheckpointAndCompact(writer, project, writer.headSequence, fault);
            var saved := writer.disk.(manifest := project);
            var compacted := Disk(project, writer.headSequence, project.position.revision, []);
            || done == Outcome(writer, false, [])
            || done == Outcome(writer.(disk := saved), false, [saved])
            || done == Outcome(
                 writer.(disk := compacted, checkpointSequence := writer.headSequence,
                         checkpointRevision := project.position.revision),
                 fault.NoFault?, [saved, compacted])
  {
    hide After;
  }

  lemma HeadOfHeldDisk(env: Environment, writer: Writer, durable: StoredProject)
    requires WriterDescribesDisk(writer) && Holds(env, writer.disk, durable)
    ensures writer.headRevision == durable.position.revision <= MAX_ROW && writer.headSequence <= MAX_ROW
    ensures After(writer.disk.batches, writer.headSequence) == []
  {
    hide Replay, Core;
    NothingAfterHead(writer.disk.batches, writer.headSequence);
  }

  lemma CompactedDiskHolds(env: Environment, project: StoredProject, saved: StoredProject, head: u64)
    requires Core(saved) == Core(project) && head <= MAX_ROW && saved.position.revision <= MAX_ROW
    ensures saved.position == project.position
    ensures Holds(env, Disk(saved, head, saved.position.revision, []), project)
  {
    CoresShareState(saved, project);
    hide Core, Reaches;
    NothingUnapplied(env, Disk(saved, head, saved.position.revision, []), project);
  }

  // Replaying the batch of an accepted command reaches the core the command produced, even
  // from a manifest that knows fewer refusals than the daemon that accepted it.
  lemma AppendedBatchReplays(
    env: Environment, manifest: StoredProject, replayed: StoredProject, durable: StoredProject,
    command: CommandMessage, now: u64, updated: StoredProject, batch: MutationBatch)
    requires Invertible(env.codec)
    requires Core(replayed) == Core(durable)
    requires forall k :: k in replayed.receipts && replayed.receipts[k].RejectedReceipt? ==> k in manifest.receipts
    requires manifest.receipts.Keys <= durable.receipts.Keys
    requires Execute(env, durable, command, now) == Prepared(updated, true)
    requires EncodeMutation(env.codec, command, now, updated.position) == Some(batch.payload)
    requires batch.revision == updated.position.revision
    ensures ReplayOne(env, replayed, batch).Ok?
    ensures Core(ReplayOne(env, replayed, batch).value) == Core(updated)
  {
    NewKeyIsNew(manifest, replayed, durable, command.idempotencyKey);
    RoundTrip(env.codec, command, now, updated.position);
    DecisionsIgnoreRefusals(env, durable, replayed, command, now);
    hide Core, Execute, DecodeMutation, EncodeMutation;
  }

  lemma NewKeyIsNew(manifest: StoredProject, replayed: StoredProject, durable: StoredProject, key: string)
    requires Core(replayed) == Core(durable) && key !in durable.receipts
    requires forall k :: k in replayed.receipts && replayed.receipts[k].RejectedReceipt? ==> k in manifest.receipts
    requires manifest.receipts.Keys <= durable.receipts.Keys
    ensures key !in replayed.receipts
  {
    assert key !in Core(durable).receipts;
  }

  // The key condition above is needed: a replay that already knows the key answers it from
  // the receipt, does not move, and the recovery reports a divergence.
  lemma KnownKeyDefeatsReplay(
    env: Environment, replayed: StoredProject, command: CommandMessage, now: u64, position: ProjectPosition,
    batch: MutationBatch)
    requires Invertible(env.codec)
    requires command.idempotencyKey in replayed.receipts
    requires EncodeMutation(env.codec, command, now, position) == Some(batch.payload)
    requires batch.revision == position.revision == replayed.position.revision + 1
    ensures ReplayOne(env, replayed, batch) == Err(Diverged)
  {
    RoundTrip(env.codec, command, now, position);
  }

  lemma ReplayOfAppended(
    env: Environment, manifest: StoredProject, batches: seq<MutationBatch>, batch: MutationBatch)
    requires Replay(env, manifest, batches).Ok?
    ensures Replay(env, manifest, batches + [batch])
            == ReplayOne(env, Replay(env, manifest, batches).value, batch)
  {
    hide ReplayOne;
    assert (batches + [batch])[..|batches|] == batches;
  }

  lemma UnappliedOfAppended(disk: Disk, batch: MutationBatch)
    requires disk.checkpointRevision <= disk.manifest.position.revision <= disk.checkpointRevision + |disk.batches|
    ensures var grown := disk.(batches := disk.batches + [batch]); Unapplied(grown) == Unapplied(disk) + [batch]
  {
  }

  lemma ChainGrows(batches: seq<MutationBatch>, sequence: nat, revision: nat, batch: MutationBatch)
    requires Chained(batches, sequence, revision)
    requires batch.sequence == sequence + |batches| + 1
    requires batch.baseRevision == revision + |batches| && batch.revision == revision + |batches| + 1
    ensures Chained(batches + [batch], sequence, revision)
  {
  }

  lemma AppendedInPlace(disk: Disk, revision: nat, batch: MutationBatch)
    requires InPlace(disk, revision) && |disk.batches| < MAX_MUTATIONS_PER_CHECKPOINT
    requires batch.sequence == disk.checkpointSequence + |disk.batches| + 1
    requires batch.baseRevision == revision && batch.revision == revision + 1
    requires RecordSize(batch) <= MAX_JOURNAL_RECORD_BYTES
    requires batch.sequence <= MAX_ROW && batch.revision <= MAX_ROW
    ensures InPlace(disk.(batches := disk.batches + [batch]), revision + 1)
  {
    hide Chained, RecordSize;
    ChainGrows(disk.batches, disk.checkpointSequence, disk.checkpointRevision, batch);
  }

  lemma UnappliedChain(disk: Disk, revision: nat)
    requires InPlace(disk, revision)
    ensures var applied := disk.manifest.position.revision - disk.checkpointRevision;
            Chained(Unapplied(disk), disk.checkpointSequence + applied, disk.manifest.position.revision)
  {
    hide RecordSize;
    ChainTail(disk.batches, disk.checkpointSequence, disk.checkpointRevision,
              disk.manifest.position.revision - disk.checkpointRevision);
  }

  lemma AppendedReaches(
    env: Environment, disk: Disk, durable: StoredProject,
    command: CommandMessage, now: u64, updated: StoredProject, batch: MutationBatch)
    requires Invertible(env.codec)
    requires Holds(env, disk, durable)
    requires disk.manifest.receipts.Keys <= durable.receipts.Keys
    requires Execute(env, durable, command, now) == Prepared(updated, true)
    requires EncodeMutation(env.codec, command, now, updated.position) == Some(batch.payload)
    requires batch.revision == updated.position.revision
    ensures Reaches(env, disk.(batches := disk.batches + [batch]), updated)
  {
    var unapplied := Unapplied(disk);
    var replayed := Replay(env, disk.manifest, unapplied).value;
    UnappliedChain(disk, durable.position.revision);
    UnappliedOfAppended(disk, batch);
    hide InPlace, Chained, Replay, ReplayOne, Execute, EncodeMutation, Core, Unapplied, Invertible;
    ReplayAddsNoRefusal(env, disk.manifest, unapplied,
                        disk.checkpointSequence + (disk.manifest.position.revision - disk.checkpointRevision));
    AppendedBatchReplays(env, disk.manifest, replayed, durable, command, now, updated, batch);
    ReplayOfAppended(env, disk.manifest, unapplied, batch);
  }

  lemma AppendedDiskHolds(
    env: Environment, disk: Disk, durable: StoredProject,
    command: CommandMessage, now: u64, updated: StoredProject, batch: MutationBatch)
    requires Invertible(env.codec)
    requires Holds(env, disk, durable) && |disk.batches| < MAX_MUTATIONS_PER_CHECKPOINT
    requires disk.manifest.receipts.Keys <= durable.receipts.Keys
    requires Execute(env, durable, command, now) == Prepared(updated, true)
    requires EncodeMutation(env.codec, command, now, updated.position) == Some(batch.payload)
    requires batch.sequence == disk.checkpointSequence + |disk.batches| + 1
    requires batch.baseRevision == durable.position.revision && batch.revision == updated.position.revision
    requires RecordSize(batch) <= MAX_JOURNAL_RECORD_BYTES
    requires batch.sequence <= MAX_ROW && batch.revision <= MAX_ROW
    ensures Holds(env, disk.(batches := disk.batches + [batch]), updated)
  {
    AcceptanceMovesOne(env, durable, command, now);
    AppendedInPlace(disk, durable.position.revision, batch);
    AppendedReaches(env, disk, durable, command, now, updated, batch);
    hide InPlace, Reaches, Execute, EncodeMutation, Invertible, RecordSize;
  }

  lemma AcceptanceMovesOne(env: Environment, project: StoredProject, command: CommandMessage, now: u64)
    ensures var execution := Execute(env, project, command, now);
            execution.Prepared? && execution.accepted ==>
              execution.updated.position.revision == project.position.revision + 1
  {
  }

  // An append that succeeds is durable in one image, and that image holds the new project.
  lemma AppendImages(env: Environment, store: Store, command: CommandMessage, now: u64,
                     durable: StoredProject, updated: StoredProject, fails: bool)
    requires Invertible(env.codec)
    requires Valid(env, Daemon(store, durable))
    requires store.pending < MAX_MUTATIONS_PER_CHECKPOINT
    requires Execute(env, durable, command, now) == Prepared(updated, true)
    ensures var done := Appended(env, store, command, now, durable, updated, fails);
            && (!done.ok ==> done.after == store && done.images == [])
            && (done.ok ==> Valid(env, Daemon(done.after, updated))
                            && done.images == [done.after.writer.disk])
  {
    var done := Appended(env, store, command, now, durable, updated, fails);
    if done.ok {
      var disk := store.writer.disk;
      var payload := EncodeMutation(env.codec, command, now, updated.position).value;
      var batch := MutationBatch(store.writer.headSequence + 1, durable.position.revision,
                                 updated.position.revision, payload);
      AppendedDiskHolds(env, disk, durable, command, now, updated, batch);
      assert done.after.writer.disk == disk.(batches := disk.batches + [batch]);
    }
  }

  // ----- one operation -----

  // Every disk image an operation makes durable holds the project before it or, when the
  // operation is a command the engine accepts, the project after it.
  ghost predicate ImageIsSafe(env: Environment, daemon: Daemon, operation: Operation, disk: Disk) {
    || Holds(env, disk, daemon.durable)
    || (&& operation.Submit?
        && Execute(env, daemon.durable, operation.command, operation.now).Prepared?
        && Execute(env, daemon.durable, operation.command, operation.now).accepted
        && Holds(env, disk, Execute(env, daemon.durable, operation.command, operation.now).updated))
  }

  lemma SettleIsSafe(env: Environment, daemon: Daemon, fault: CheckpointFault)
    requires Valid(env, daemon)
    ensures var effect := Perform(env, daemon, SettleNow(fault));
            && Valid(env, effect.after)
            && effect.after.durable == daemon.durable
            && (forall i :: 0 <= i < |effect.images| ==> Holds(env, effect.images[i], daemon.durable))
  {
    CheckpointImages(env, daemon.store, daemon.durable, daemon.durable, fault);
  }

  lemma RefusalIsSafe(env: Environment, daemon: Daemon, command: CommandMessage, now: u64, faults: Faults)
    requires Valid(env, daemon)
    requires Execute(env, daemon.durable, command, now).Prepared?
    requires !Execute(env, daemon.durable, command, now).accepted
    ensures var effect := Perform(env, daemon, Submit(command, now, faults));
            && Valid(env, effect.after)
            && !effect.accepted
            && Core(effect.after.durable) == Core(daemon.durable)
            && (forall i :: 0 <= i < |effect.images| ==> Holds(env, effect.images[i], daemon.durable))
  {
    var updated := Execute(env, daemon.durable, command, now).updated;
    DecisionsIgnoreRefusals(env, daemon.durable, daemon.durable, command, now);
    assert SingleRevisionStep(daemon.durable, updated).None?;
    assert daemon.durable.receipts.Keys <= updated.receipts.Keys;
    hide Execute, Holds, Core, SingleRevisionStep;
    RefusedRecordIsSafe(env, daemon, command, now, updated, faults);
    hide Recorded;
  }

  // Recording a refused command: counted, and at the bound checkpointed with its receipt.
  lemma RefusedRecordIsSafe(env: Environment, daemon: Daemon, command: CommandMessage, now: u64,
                            updated: StoredProject, faults: Faults)
    requires Valid(env, daemon)
    requires SingleRevisionStep(daemon.durable, updated).None? && Core(updated) == Core(daemon.durable)
    requires daemon.durable.receipts.Keys <= updated.receipts.Keys
    ensures var recorded := Recorded(env, daemon.store, command, now, daemon.durable, updated, faults);
            && Valid(env, Daemon(recorded.after, if recorded.ok then updated else daemon.durable))
            && (forall i :: 0 <= i < |recorded.images| ==> Holds(env, recorded.images[i], daemon.durable))
  {
    hide Holds, Core, SingleRevisionStep, Checkpointed, Appended;
    var counted := daemon.store.(pending := SaturatingIncrement(daemon.store.pending));
    CheckpointImages(env, counted, daemon.durable, updated, faults.checkpoint);
    HoldsIsAboutCore(env, daemon.store.writer.disk, daemon.durable, updated);
    HoldsIsAboutCore(env, Checkpointed(counted, updated, faults.checkpoint).after.writer.disk, daemon.durable, updated);
  }

  lemma HoldsIsAboutCore(env: Environment, disk: Disk, left: StoredProject, right: StoredProject)
    requires Core(left) == Core(right)
    ensures Holds(env, disk, left) == Holds(env, disk, right)
  {
    assert Core(left).position == left.position && Core(right).position == right.position;
  }

  lemma AcceptanceIsSafe(env: Environment, daemon: Daemon, command: CommandMessage, now: u64, faults: Faults)
    requires Invertible(env.codec)
    requires Valid(env, daemon)
    requires Execute(env, daemon.durable, command, now).Prepared?
    requires Execute(env, daemon.durable, command, now).accepted
    ensures var effect := Perform(env, daemon, Submit(command, now, faults));
            var updated := Execute(env, daemon.durable, command, now).updated;
            && Valid(env, effect.after)
            && effect.after.durable == (if effect.accepted then updated else daemon.durable)
            && (forall i :: 0 <= i < |effect.images| ==>
                  || Holds(env, effect.images[i], daemon.durable)
                  || (effect.accepted && Holds(env, effect.images[i], updated)))
  {
    var updated := Execute(env, daemon.durable, command, now).updated;
    assert SingleRevisionStep(daemon.durable, updated).Some?;
    assert Execute(env, daemon.durable, command, now) == Prepared(updated, true);
    AcceptedRecordIsSafe(env, daemon, command, now, updated, faults);
    hide Execute, Holds, Recorded, SingleRevisionStep;
  }

  // Recording an accepted command, with or without the checkpoint that comes first.
  lemma AcceptedRecordIsSafe(env: Environment, daemon: Daemon, command: CommandMessage, now: u64,
                             updated: StoredProject, faults: Faults)
    requires Invertible(env.codec)
    requires Valid(env, daemon)
    requires Execute(env, daemon.durable, command, now) == Prepared(updated, true)
    requires SingleRevisionStep(daemon.durable, updated).Some?
    ensures var recorded := Recorded(env, daemon.store, command, now, daemon.durable, updated, faults);
            && Valid(env, Daemon(recorded.after, if recorded.ok then updated else daemon.durable))
            && (forall i :: 0 <= i < |recorded.images| ==>
                  || Holds(env, recorded.images[i], daemon.durable)
                  || (recorded.ok && Holds(env, recorded.images[i], updated)))
  {
    hide Execute, Holds, Core, CheckpointAndCompact, Appended, SingleRevisionStep, Checkpointed;
    if daemon.store.pending >= MAX_MUTATIONS_PER_CHECKPOINT {
      CheckpointImages(env, daemon.store, daemon.durable, daemon.durable, faults.checkpoint);
      var checkpointed := Checkpointed(daemon.store, daemon.durable, faults.checkpoint);
      if checkpointed.ok {
        AppendImages(env, checkpointed.after, command, now, daemon.durable, updated, faults.appendFails);
      }
    } else {
      AppendImages(env, daemon.store, command, now, daemon.durable, updated, faults.appendFails);
    }
  }

  // The invariant survives every operation, whatever fails inside it; a command whose record
  // failed left no trace a recovery could see; and no durable write loses or doubles a command.
  lemma OperationIsSafe(env: Environment, daemon: Daemon, operation: Operation)
    requires Invertible(env.codec)
    requires Valid(env, daemon)
    ensures var effect := Perform(env, daemon, operation);
            && Valid(env, effect.after)
            && (forall i :: 0 <= i < |effect.images| ==> ImageIsSafe(env, daemon, operation, effect.images[i]))
            && (effect.accepted ==>
                  && operation.Submit?
                  && Execute(env, daemon.durable, operation.command, operation.now)
                     == Prepared(effect.after.durable, true))
            && (!effect.accepted ==>
                  && Core(effect.after.durable) == Core(daemon.durable)
                  && forall i :: 0 <= i < |effect.images| ==> Holds(env, effect.images[i], daemon.durable))
  {
    match operation
    case SettleNow(fault) => SettleIsSafe(env, daemon, fault);
    case Submit(command, now, faults) =>
      match Execute(env, daemon.durable, command, now) {
        case Replayed =>
        case Prepared(_, accepted) =>
          if accepted {
            AcceptanceIsSafe(env, daemon, command, now, faults);
          } else {
            RefusalIsSafe(env, daemon, command, now, faults);
          }
      }
  }

  // A record that reports failure leaves no batch behind: every image it made durable has
  // the batches from before the call, or none at all.
  lemma FailedRecordLeavesNoBatch(env: Environment, daemon: Daemon, command: CommandMessage, now: u64,
                                  updated: StoredProject, faults: Faults)
    requires Valid(env, daemon)
    ensures var recorded := Recorded(env, daemon.store, command, now, daemon.durable, updated, faults);
            !recorded.ok ==>
              forall i :: 0 <= i < |recorded.images| ==>
                || recorded.images[i].batches == daemon.store.writer.disk.batches
                || recorded.images[i].batches == []
  {
    hide Holds;
    NothingAfterHeldHead(env, daemon);
  }

  lemma NothingAfterHeldHead(env: Environment, daemon: Daemon)
    requires Valid(env, daemon)
    ensures After(daemon.store.writer.disk.batches, daemon.store.writer.headSequence) == []
  {
    hide Replay;
    NothingAfterHead(daemon.store.writer.disk.batches, daemon.store.writer.headSequence);
  }

  // ----- recovery -----

  datatype Restarted = Restarted(daemon: Daemon, images: seq<Disk>)

  function OpenWriter(disk: Disk): (writer: Writer)
    requires disk.checkpointSequence + |disk.batches| <= U64_MAX
    requires disk.checkpointRevision + |disk.batches| <= U64_MAX
  {
    Writer(disk, disk.checkpointSequence, disk.checkpointRevision,
           disk.checkpointSequence + |disk.batches|, disk.checkpointRevision + |disk.batches|)
  }

  // The disk once the checkpoint row has caught up with the manifest.
  function Resolved(disk: Disk, scan: Scan): Disk { Disk(disk.manifest, scan.sequence, scan.revision, scan.batches) }

  // Load, reconcile the checkpoint row, replay, save the result, compact.
  function Restart(env: Environment, disk: Disk): (restarted: Restarted)
    requires Recover(env, disk).Ok?
  {
    var scan := ReadScan(disk).value;
    var project := Recover(env, disk).value;
    var resolved := Resolved(disk, scan);
    if scan.batches == [] then
      Restarted(Daemon(Store(OpenWriter(resolved), 0), project), [resolved])
    else
      var head := scan.batches[|scan.batches| - 1].sequence;
      var saved := resolved.(manifest := project);
      var compacted := Disk(project, head, project.position.revision, []);
      Restarted(Daemon(Store(OpenWriter(compacted), 0), project), [resolved, saved, compacted])
  }

  // A recovery that completes gives a valid daemon on the held project; one that is cut
  // short at any of its writes leaves a disk that still holds it.
  lemma RestartIsSafe(env: Environment, disk: Disk, project: StoredProject)
    requires Holds(env, disk, project)
    ensures Recover(env, disk).Ok?
    ensures var restarted := Restart(env, disk);
            && Valid(env, restarted.daemon)
            && Core(restarted.daemon.durable) == Core(project)
            && forall i :: 0 <= i < |restarted.images| ==> Holds(env, restarted.images[i], project)
  {
    hide *;
    HeldDiskRecovers(env, disk, project);
    ResolvedDiskHolds(env, disk, project);
    var scan := ReadScan(disk).value;
    HoldsIsAboutCore(env, Resolved(disk, scan), project, Recover(env, disk).value);
    if scan.batches == [] {
      RecoveryOfNothing(env, disk);
      QuickRestartIsSafe(env, disk, project);
    } else {
      PlacedFacts(env, Resolved(disk, scan), project);
      FullRestartIsSafe(env, disk, project);
    }
  }

  lemma PlacedFacts(env: Environment, disk: Disk, project: StoredProject)
    requires Holds(env, disk, project)
    ensures InRows(disk) && Chained(disk.batches, disk.checkpointSequence, disk.checkpointRevision)
    ensures project.position.revision == disk.checkpointRevision + |disk.batches|
  {
    hide Reaches;
  }

  lemma RecoveryOfNothing(env: Environment, disk: Disk)
    requires ReadScan(disk).Ok? && ReadScan(disk).value.batches == []
    ensures Recover(env, disk) == Ok(disk.manifest)
  {
    hide ReadScan;
  }

  // Nothing to replay: the checkpoint row moves and the manifest is the project.
  lemma QuickRestartIsSafe(env: Environment, disk: Disk, project: StoredProject)
    requires ReadScan(disk).Ok? && ReadScan(disk).value.batches == [] && Recover(env, disk) == Ok(disk.manifest)
    requires Core(disk.manifest) == Core(project)
    requires var resolved := Resolved(disk, ReadScan(disk).value);
             Holds(env, resolved, project) && Holds(env, resolved, disk.manifest) && InRows(resolved)
    ensures var restarted := Restart(env, disk);
            && Valid(env, restarted.daemon)
            && Core(restarted.daemon.durable) == Core(project)
            && forall i :: 0 <= i < |restarted.images| ==> Holds(env, restarted.images[i], project)
  {
    hide Holds, Core, ReadScan, Recover, Valid;
    FreshDaemonIsValid(env, Resolved(disk, ReadScan(disk).value), disk.manifest);
  }

  // Replayed batches are folded into the manifest and dropped.
  lemma FullRestartIsSafe(env: Environment, disk: Disk, project: StoredProject)
    requires ReadScan(disk).Ok? && ReadScan(disk).value.batches != [] && Recover(env, disk).Ok?
    requires Core(Recover(env, disk).value) == Core(project)
    requires var resolved := Resolved(disk, ReadScan(disk).value);
             Holds(env, resolved, project) && InRows(resolved) && Chained(resolved.batches, resolved.checkpointSequence,
                                                                          resolved.checkpointRevision)
             && project.position.revision == resolved.checkpointRevision + |resolved.batches|
    ensures var restarted := Restart(env, disk);
            && Valid(env, restarted.daemon)
            && Core(restarted.daemon.durable) == Core(project)
            && forall i :: 0 <= i < |restarted.images| ==> Holds(env, restarted.images[i], project)
  {
    hide Holds, Core, ReadScan, Recover, Valid;
    var scan, recovered := ReadScan(disk).value, Recover(env, disk).value;
    var resolved, head := Resolved(disk, scan), scan.batches[|scan.batches| - 1].sequence;
    CoresShareState(recovered, project);
    assert head == resolved.checkpointSequence + |resolved.batches|;
    hide Chained;
    var compacted := Disk(recovered, head, recovered.position.revision, []);
    SavedManifestHolds(env, resolved, project, recovered);
    CompactedDiskHolds(env, project, recovered, head);
    HoldsIsAboutCore(env, compacted, project, recovered);
    FreshDaemonIsValid(env, compacted, recovered);
  }

  lemma FreshDaemonIsValid(env: Environment, disk: Disk, project: StoredProject)
    requires Holds(env, disk, project) && disk.manifest == project && disk.batches == [] && InRows(disk)
    ensures Valid(env, Daemon(Store(OpenWriter(disk), 0), project))
  {
    hide Holds;
  }

  // Moving the checkpoint row up to the manifest keeps the disk good.
  lemma ResolvedDiskHolds(env: Environment, disk: Disk, project: StoredProject)
    requires Holds(env, disk, project)
    ensures ReadScan(disk).Ok?
    ensures var resolved := Resolved(disk, ReadScan(disk).value);
            Holds(env, resolved, project) && InRows(resolved)
  {
    ScanOfHeldDisk(env, disk, project);
    var scan := ReadScan(disk).value;
    var resolved := Resolved(disk, scan);
    assert |scan.batches| == project.position.revision - disk.manifest.position.revision;
    hide ReadScan, Replay, Core;
    assert Unapplied(resolved) == scan.batches;
    ResolvedInPlace(disk, scan, project.position.revision);
    hide InPlace, Unapplied;
  }

  lemma ResolvedInPlace(disk: Disk, scan: Scan, revision: u64)
    requires InPlace(disk, revision) && scan.revision == disk.manifest.position.revision
    requires scan.sequence == disk.checkpointSequence + (disk.manifest.position.revision - disk.checkpointRevision)
    requires scan.batches == Unapplied(disk) && Chained(scan.batches, scan.sequence, scan.revision)
    ensures InPlace(Resolved(disk, scan), revision) && InRows(Resolved(disk, scan))
  {
    hide RecordSize, Chained;
  }

  // Any number of recoveries, each cut short after some of its writes.
  function InterruptedRecoveries(env: Environment, disk: Disk, cuts: seq<nat>): (left: Disk)
    decreases |cuts|
  {
    if cuts == [] || Recover(env, disk).Err? then disk
    else
      var images := [disk] + Restart(env, disk).images;
      InterruptedRecoveries(env, images[if cuts[0] < |images| then cuts[0] else |images| - 1], cuts[1..])
  }

  lemma {:induction false} InterruptedRecoveriesAreSafe(
    env: Environment, disk: Disk, project: StoredProject, cuts: seq<nat>)
    requires Holds(env, disk, project)
    ensures Holds(env, InterruptedRecoveries(env, disk, cuts), project)
    decreases |cuts|
  {
    hide Holds, Restart, Recover, Core;
    if cuts != [] {
      RestartIsSafe(env, disk, project);
      var images := [disk] + Restart(env, disk).images;
      InterruptedRecoveriesAreSafe(
        env, images[if cuts[0] < |images| then cuts[0] else |images| - 1], project, cuts[1..]);
    }
  }

  // ----- whole runs -----

  datatype Entry = Entry(command: CommandMessage, now: u64, acknowledged: bool)

  // The daemon together with the commands that took effect, oldest first.
  datatype System = System(daemon: Daemon, history: seq<Entry>)

  datatype Event =
    | Completed(operation: Operation)
    | CrashDuring(operation: Operation, writes: nat, recoveryCuts: seq<nat>)

  // The disk a crash finds when `writes` of the operation's durable writes were reached.
  function DiskAtCrash(env: Environment, daemon: Daemon, operation: Operation, writes: nat): (disk: Disk) {
    var images := [daemon.store.writer.disk] + Perform(env, daemon, operation).images;
    images[if writes < |images| then writes else |images| - 1]
  }

  function Step(env: Environment, system: System, event: Event): (next: Option<System>) {
    match event
    case Completed(operation) =>
      var effect := Perform(env, system.daemon, operation);
      Some(System(effect.after,
                  if effect.accepted && operation.Submit? then
                    system.history + [Entry(operation.command, operation.now, true)]
                  else system.history))
    case CrashDuring(operation, writes, recoveryCuts) =>
      var disk := InterruptedRecoveries(
                    env, DiskAtCrash(env, system.daemon, operation, writes), recoveryCuts);
      if Recover(env, disk).Err? then None
      else
        var daemon := Restart(env, disk).daemon;
        var survived := operation.Submit?
                        && daemon.durable.position.revision > system.daemon.durable.position.revision;
        Some(System(daemon,
                    if survived then system.history + [Entry(operation.command, operation.now, false)]
                    else system.history))
  }

  function Run(env: Environment, start: System, events: seq<Event>): (end: Option<System>) {
    if events == [] then Some(start)
    else match Run(env, start, events[..|events| - 1])
         case None => None
         case Some(system) => Step(env, system, events[|events| - 1])
  }

  // The core reached by executing commands one after another, and nothing else.
  function CoreAfter(env: Environment, start: StoredProject, history: seq<Entry>): (core: StoredProject) {
    if history == [] then Core(start)
    else
      var core := CoreAfter(env, start, history[..|history| - 1]);
      var last := history[|history| - 1];
      match Execute(env, core, last.command, last.now)
      case Replayed => core
      case Prepared(updated, _) => Core(updated)
  }

  ghost predicate Faithful(env: Environment, start: StoredProject, system: System) {
    && Valid(env, system.daemon)
    && Core(system.daemon.durable) == CoreAfter(env, start, system.history)
    && system.daemon.durable.position.revision == start.position.revision + |system.history|
    && Receipted(system.history, Core(system.daemon.durable).receipts)
  }

  // Every command that took effect has its receipt, and no two share a key.
  ghost predicate Receipted(history: seq<Entry>, receipts: map<string, Receipt>) {
    && (forall i :: 0 <= i < |history| ==> history[i].command.idempotencyKey in receipts)
    && (forall i, j :: 0 <= i < j < |history| ==>
          history[i].command.idempotencyKey != history[j].command.idempotencyKey)
  }

  lemma ReceiptedLonger(history: seq<Entry>, before: map<string, Receipt>, entry: Entry, after: map<string, Receipt>)
    requires Receipted(history, before) && entry.command.idempotencyKey !in before
    requires entry.command.idempotencyKey in after && forall k :: k in before ==> k in after
    ensures Receipted(history + [entry], after)
  {
  }

  // A freshly created project: its manifest, and an empty journal at that revision, which can
  // only be created if the checkpoint row can hold it.
  function Created(project: StoredProject, sequence: u64): (system: Option<System>) {
    var disk := Disk(project, sequence, project.position.revision, []);
    if InRows(disk) then Some(System(Daemon(Store(OpenWriter(disk), 0), project), [])) else None
  }

  lemma FreshIsFaithful(env: Environment, project: StoredProject, sequence: u64)
    requires Created(project, sequence).Some?
    ensures Faithful(env, project, Created(project, sequence).value)
  {
    var disk := Disk(project, sequence, project.position.revision, []);
    CompactedDiskHolds(env, project, project, sequence);
    hide Holds, Core;
    FreshDaemonIsValid(env, disk, project);
    hide Valid;
  }

  // One accepted command takes the faithful system one entry further.
  lemma AcceptedEntryExtends(
    env: Environment, start: StoredProject, system: System, command: CommandMessage, now: u64,
    daemon: Daemon, acknowledged: bool)
    requires Faithful(env, start, system)
    requires Valid(env, daemon)
    requires Execute(env, system.daemon.durable, command, now).Prepared?
    requires Execute(env, system.daemon.durable, command, now).accepted
    requires Core(daemon.durable) == Core(Execute(env, system.daemon.durable, command, now).updated)
    ensures Faithful(env, start, System(daemon, system.history + [Entry(command, now, acknowledged)]))
  {
    var before := system.daemon.durable;
    var updated := Execute(env, before, command, now).updated;
    CoreOfCore(before);
    DecisionsIgnoreRefusals(env, before, Core(before), command, now);
    AcceptedCore(env, before, command, now);
    AcceptanceMovesOne(env, before, command, now);
    CoresShareState(daemon.durable, updated);
    CoreAfterOne(env, start, system.history, Entry(command, now, acknowledged));
    hide Execute, Core, CoreAfter, Valid, Receipted;
    ReceiptedLonger(system.history, Core(before).receipts, Entry(command, now, acknowledged),
                    Core(daemon.durable).receipts);
  }

  lemma CoreAfterOne(env: Environment, start: StoredProject, history: seq<Entry>, entry: Entry)
    ensures CoreAfter(env, start, history + [entry]) ==
              (var core := CoreAfter(env, start, history);
               var execution := Execute(env, core, entry.command, entry.now);
               if execution.Prepared? then Core(execution.updated) else core)
  {
    var longer := history + [entry];
    assert longer[..|longer| - 1] == history && longer[|longer| - 1] == entry;
    hide Execute, Core;
  }

  // The key of an accepted command is new to the core, and every key of the core stays.
  lemma AcceptedCore(env: Environment, project: StoredProject, command: CommandMessage, now: u64)
    requires Execute(env, project, command, now).Prepared? && Execute(env, project, command, now).accepted
    ensures var key, core := command.idempotencyKey, Core(Execute(env, project, command, now).updated);
            && key !in Core(project).receipts && key !in project.receipts && key in core.receipts
            && (forall k :: k in Core(project).receipts ==> k in core.receipts)
  {
    ExecutionOnCore(env, project, command, now);
  }

  lemma UnchangedCoreExtends(env: Environment, start: StoredProject, system: System, daemon: Daemon)
    requires Faithful(env, start, system)
    requires Valid(env, daemon)
    requires Core(daemon.durable) == Core(system.daemon.durable)
    ensures Faithful(env, start, System(daemon, system.history))
  {
    CoresShareState(daemon.durable, system.daemon.durable);
    hide Core, CoreAfter, Valid, Receipted;
  }

  lemma StepIsFaithful(env: Environment, start: StoredProject, system: System, event: Event)
    requires Invertible(env.codec)
    requires Faithful(env, start, system)
    ensures Step(env, system, event).Some?
    ensures Faithful(env, start, Step(env, system, event).value)
  {
    hide Faithful;
    match event
    case Completed(operation) => CompletionIsFaithful(env, start, system, operation);
    case CrashDuring(operation, writes, recoveryCuts) =>
      CrashIsFaithful(env, start, system, operation, writes, recoveryCuts);
  }

  lemma CompletionIsFaithful(env: Environment, start: StoredProject, system: System, operation: Operation)
    requires Invertible(env.codec)
    requires Faithful(env, start, system)
    ensures Faithful(env, start, Step(env, system, Completed(operation)).value)
  {
    var effect := Perform(env, system.daemon, operation);
    OperationIsSafe(env, system.daemon, operation);
    hide Faithful, Perform, Execute, Core, Valid, Holds, Invertible;
    if effect.accepted {
      AcceptedEntryExtends(env, start, system, operation.command, operation.now, effect.after, true);
    } else {
      UnchangedCoreExtends(env, start, system, effect.after);
    }
  }

  lemma CrashIsFaithful(env: Environment, start: StoredProject, system: System, operation: Operation, writes: nat,
                        recoveryCuts: seq<nat>)
    requires Invertible(env.codec)
    requires Faithful(env, start, system)
    ensures Step(env, system, CrashDuring(operation, writes, recoveryCuts)).Some?
    ensures Faithful(env, start, Step(env, system, CrashDuring(operation, writes, recoveryCuts)).value)
  {
    var before := system.daemon.durable;
    var crashed := DiskAtCrash(env, system.daemon, operation, writes);
    var disk := InterruptedRecoveries(env, crashed, recoveryCuts);
    hide *;
    FaithfulIsValid(env, start, system);
    CrashImageIsSafe(env, system.daemon, operation, writes);
    if Holds(env, crashed, before) {
      RecoveryReaches(env, crashed, before, recoveryCuts);
      CrashStep(env, system, operation, writes, recoveryCuts, disk);
      UnchangedCoreExtends(env, start, system, Restart(env, disk).daemon);
    } else {
      SafeImageIsAfter(env, system.daemon, operation, crashed);
      var updated := Execute(env, before, operation.command, operation.now).updated;
      AcceptanceMovesOne(env, before, operation.command, operation.now);
      RecoveryReaches(env, crashed, updated, recoveryCuts);
      CrashStep(env, system, operation, writes, recoveryCuts, disk);
      AcceptedEntryExtends(env, start, system, operation.command, operation.now, Restart(env, disk).daemon, false);
    }
  }

  lemma CrashStep(env: Environment, system: System, operation: Operation, writes: nat, recoveryCuts: seq<nat>, disk: Disk)
    requires disk == InterruptedRecoveries(env, DiskAtCrash(env, system.daemon, operation, writes), recoveryCuts)
    requires Recover(env, disk).Ok?
    ensures var daemon := Restart(env, disk).daemon;
            var later := daemon.durable.position.revision > system.daemon.durable.position.revision;
            Step(env, system, CrashDuring(operation, writes, recoveryCuts)) ==
              Some(System(daemon, if operation.Submit? && later
                                  then system.history + [Entry(operation.command, operation.now, false)]
                                  else system.history))
  {
    hide DiskAtCrash, InterruptedRecoveries, Restart, Recover;
  }

  lemma FaithfulIsValid(env: Environment, start: StoredProject, system: System)
    requires Faithful(env, start, system)
    ensures Valid(env, system.daemon)
  {
  }

  lemma SafeImageIsAfter(env: Environment, daemon: Daemon, operation: Operation, disk: Disk)
    requires ImageIsSafe(env, daemon, operation, disk) && !Holds(env, disk, daemon.durable)
    ensures operation.Submit?
    ensures var execution := Execute(env, daemon.durable, operation.command, operation.now);
            execution.Prepared? && execution.accepted && Holds(env, disk, execution.updated)
  {
    hide Holds, Execute;
  }

  lemma CrashImageIsSafe(env: Environment, daemon: Daemon, operation: Operation, writes: nat)
    requires Invertible(env.codec) && Valid(env, daemon)
    ensures ImageIsSafe(env, daemon, operation, DiskAtCrash(env, daemon, operation, writes))
  {
    OperationIsSafe(env, daemon, operation);
    assert Holds(env, daemon.store.writer.disk, daemon.durable);
    hide Perform, Execute, Core, Valid, Holds, Invertible;
  }

  lemma RecoveryReaches(env: Environment, crashed: Disk, project: StoredProject, recoveryCuts: seq<nat>)
    requires Holds(env, crashed, project)
    ensures var disk := InterruptedRecoveries(env, crashed, recoveryCuts);
            && Recover(env, disk).Ok?
            && Valid(env, Restart(env, disk).daemon)
            && Core(Restart(env, disk).daemon.durable) == Core(project)
            && Restart(env, disk).daemon.durable.position == project.position
  {
    hide Holds, Core, Valid, Restart, Recover, InterruptedRecoveries;
    InterruptedRecoveriesAreSafe(env, crashed, project, recoveryCuts);
    RestartIsSafe(env, InterruptedRecoveries(env, crashed, recoveryCuts), project);
    CoresShareState(Restart(env, InterruptedRecoveries(env, crashed, recoveryCuts)).daemon.durable, project);
  }

  // Every run of operations and crashes, from any fresh project: recovery never fails, the
  // durable state is the state of executing the surviving commands once each, in order, and
  // every acknowledged acceptance is among them for good.
  lemma {:induction false} EveryRunIsFaithful(
    env: Environment, project: StoredProject, sequence: u64, events: seq<Event>)
    requires Created(project, sequence).Some?
    requires Invertible(env.codec)
    ensures Run(env, Created(project, sequence).value, events).Some?
    ensures Faithful(env, project, Run(env, Created(project, sequence).value, events).value)
  {
    if events == [] {
      FreshIsFaithful(env, project, sequence);
    } else {
      EveryRunIsFaithful(env, project, sequence, events[..|events| - 1]);
      StepIsFaithful(env, project, Run(env, Created(project, sequence).value, events[..|events| - 1]).value,
                     events[|events| - 1]);
    }
  }

  // The log of commands that took effect only ever grows.
  lemma {:induction false} HistoryIsNeverRewritten(
    env: Environment, start: System, events: seq<Event>, count: nat)
    requires count <= |events|
    requires Run(env, start, events).Some?
    ensures Run(env, start, events[..count]).Some?
    ensures Run(env, start, events[..count]).value.history <= Run(env, start, events).value.history
  {
    if count == |events| {
      assert events[..count] == events;
    } else {
      var front := events[..|events| - 1];
      assert front[..count] == events[..count];
      HistoryIsNeverRewritten(env, start, front, count);
    }
  }

  // Executing a further command leaves every receipt of an accepted one as it is.
  lemma {:induction false} CoreKeepsReceipts(env: Environment, start: StoredProject, history: seq<Entry>, count: nat)
    requires count <= |history|
    ensures var earlier, later := CoreAfter(env, start, history[..count]).receipts, CoreAfter(env, start, history).receipts;
            forall key :: key in earlier ==> key in later && later[key] == earlier[key]
  {
    if count == |history| {
      assert history[..count] == history;
    } else {
      var front := history[..|history| - 1];
      assert front[..count] == history[..count];
      CoreKeepsReceipts(env, start, front, count);
      CoreAfterIsCore(env, start, front);
      ExecutionKeepsReceipts(env, CoreAfter(env, start, front), history[|history| - 1]);
    }
  }

  lemma CoreAfterIsCore(env: Environment, start: StoredProject, history: seq<Entry>)
    ensures Core(CoreAfter(env, start, history)) == CoreAfter(env, start, history)
  {
    hide Execute, Core;
    CoreOfCore(start);
    if history != [] {
      var last := history[|history| - 1];
      var core := CoreAfter(env, start, history[..|history| - 1]);
      CoreAfterIsCore(env, start, history[..|history| - 1]);
      if Execute(env, core, last.command, last.now).Prepared? {
        CoreOfCore(Execute(env, core, last.command, last.now).updated);
      }
    }
  }

  lemma ExecutionKeepsReceipts(env: Environment, core: StoredProject, entry: Entry)
    requires Core(core) == core
    ensures var execution := Execute(env, core, entry.command, entry.now);
            execution.Prepared? ==>
              forall key :: key in core.receipts ==>
                key in Core(execution.updated).receipts && Core(execution.updated).receipts[key] == core.receipts[key]
  {
  }

  // What a client was told stays true: on every run, with crashes anywhere, the receipt of an
  // accepted command that is durable at some point is there, unchanged, at every later point.
  lemma ReceiptsAreKept(env: Environment, project: StoredProject, sequence: u64, events: seq<Event>, count: nat)
    requires Created(project, sequence).Some?
    requires Invertible(env.codec) && count <= |events|
    ensures Run(env, Created(project, sequence).value, events[..count]).Some? && Run(env, Created(project, sequence).value, events).Some?
    ensures var earlier := Core(Run(env, Created(project, sequence).value, events[..count]).value.daemon.durable).receipts;
            var later := Core(Run(env, Created(project, sequence).value, events).value.daemon.durable).receipts;
            forall key :: key in earlier ==> key in later && later[key] == earlier[key]
  {
    hide *;
    EveryRunIsFaithful(env, project, sequence, events[..count]);
    EveryRunIsFaithful(env, project, sequence, events);
    HistoryIsNeverRewritten(env, Created(project, sequence).value, events, count);
    var shorter := Run(env, Created(project, sequence).value, events[..count]).value;
    var longer := Run(env, Created(project, sequence).value, events).value;
    FaithfulCore(env, project, shorter);
    FaithfulCore(env, project, longer);
    assert longer.history[..|shorter.history|] == shorter.history;
    CoreKeepsReceipts(env, project, longer.history, |shorter.history|);
  }

  lemma FaithfulCore(env: Environment, start: StoredProject, system: System)
    requires Faithful(env, start, system)
    ensures Core(system.daemon.durable) == CoreAfter(env, start, system.history)
  {
  }

  // In every run the journal keeps its bound and its chain, even across failed checkpoints,
  // and an empty pending count means that the manifest is the current project, receipts and all.
  lemma EveryRunStaysBounded(env: Environment, project: StoredProject, sequence: u64, events: seq<Event>)
    requires Created(project, sequence).Some?
    requires Invertible(env.codec)
    ensures Run(env, Created(project, sequence).value, events).Some?
    ensures var daemon := Run(env, Created(project, sequence).value, events).value.daemon;
            var disk := daemon.store.writer.disk;
            && |disk.batches| <= MAX_MUTATIONS_PER_CHECKPOINT
            && Chained(disk.batches, disk.checkpointSequence, disk.checkpointRevision)
            && disk.checkpointRevision + |disk.batches| == daemon.durable.position.revision
            && (daemon.store.pending == 0 ==> disk.manifest == daemon.durable && disk.batches == [])
  {
    EveryRunIsFaithful(env, project, sequence, events);
  }
}
