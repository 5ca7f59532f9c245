// The mutation journal: an accepted command is appended and durable before it is
// acknowledged, and checkpoints fold the appended batches into the manifest
// (apps/freemixd/src/journal.rs, crates/services/fm-persistence/src/journal.rs).
module Journal {
  import opened Basics
  import opened Codec
  import opened Engine

  const MAX_MUTATIONS_PER_CHECKPOINT: nat := 64
  const MAX_JOURNAL_RECORD_BYTES: nat := 1024 * 1024
  const MAX_UNAPPLIED_JOURNAL_BATCHES: nat := 65_536
  const MAX_UNAPPLIED_JOURNAL_BYTES: nat := 128 * 1024 * 1024
  const RECORD_OVERHEAD_BYTES: nat := 8 + 8 + 8 + 4

  // The largest number a database row can hold: its integers are signed 64-bit.
  const MAX_ROW: nat := 0x7FFF_FFFF_FFFF_FFFF

  datatype MutationBatch = MutationBatch(sequence: u64, baseRevision: u64, revision: u64, payload: seq<byte>)

  // What survives loss of power: the manifest, the checkpoint row and the batch rows.
  datatype Disk = Disk(
    manifest: StoredProject,
    checkpointSequence: u64,
    checkpointRevision: u64,
    batches: seq<MutationBatch>)

  datatype JournalError =
    | ManifestBehindJournal | Gap | UnappliedLimit | JournalBehindManifest
    | Undecodable | RevisionMismatch | Diverged

  datatype Scan = Scan(sequence: u64, revision: u64, batches: seq<MutationBatch>)

  function RecordSize(batch: MutationBatch): nat { RECORD_OVERHEAD_BYTES + |batch.payload| }

  function RetainedBytes(batches: seq<MutationBatch>): nat {
    if batches == [] then 0
    else RetainedBytes(batches[..|batches| - 1]) + RecordSize(batches[|batches| - 1])
  }

  // Sequences and revisions both continue by exactly one from the checkpoint.
  predicate Chained(batches: seq<MutationBatch>, sequence: nat, revision: nat) {
    forall i :: 0 <= i < |batches| ==>
      && batches[i].sequence == sequence + 1 + i
      && batches[i].baseRevision == revision + i
      && batches[i].revision == revision + 1 + i
  }

  function IndexOfRevision(batches: seq<MutationBatch>, revision: nat): (index: Option<nat>)
    ensures index.Some? ==> index.value < |batches| && batches[index.value].revision == revision
    ensures index.Some? ==> forall i :: 0 <= i < index.value ==> batches[i].revision != revision
    ensures index.None? ==> forall i :: 0 <= i < |batches| ==> batches[i].revision != revision
  {
    if batches == [] then None
    else if batches[0].revision == revision then Some(0)
    else match IndexOfRevision(batches[1..], revision)
         case None => None
         case Some(i) => Some(i + 1)
  }

  // Reading the journal back and reconciling it with the manifest.
  function ReadScan(disk: Disk): (scan: Result<Scan, JournalError>) {
    var revision := disk.manifest.position.revision;
    if disk.checkpointRevision > revision then Err(ManifestBehindJournal)
    else if |disk.batches| > MAX_UNAPPLIED_JOURNAL_BATCHES
            || RetainedBytes(disk.batches) > MAX_UNAPPLIED_JOURNAL_BYTES then Err(UnappliedLimit)
    else if !Chained(disk.batches, disk.checkpointSequence, disk.checkpointRevision) then Err(Gap)
    else if revision == disk.checkpointRevision then
      Ok(Scan(disk.checkpointSequence, revision, disk.batches))
    else if disk.batches == [] then Ok(Scan(disk.checkpointSequence, revision, []))
    else
      match IndexOfRevision(disk.batches, revision)
      case None => Err(JournalBehindManifest)
      case Some(i) => Ok(Scan(disk.batches[i].sequence, revision, disk.batches[i + 1..]))
  }

  function ReplayOne(env: Environment, project: StoredProject, batch: MutationBatch)
    : (replayed: Result<StoredProject, JournalError>)
  {
    match DecodeMutation(env.codec, batch.payload)
    case Err(_) => Err(Undecodable)
    case Ok(recorded) =>
      if recorded.position.revision != batch.revision then Err(RevisionMismatch)
      else
        var next := match Execute(env, project, recorded.command, recorded.submittedAtMillis)
                    case Replayed => project
                    case Prepared(updated, _) => updated;
        if next.position != recorded.position then Err(Diverged) else Ok(next)
  }

  function Replay(env: Environment, manifest: StoredProject, batches: seq<MutationBatch>)
    : (replayed: Result<StoredProject, JournalError>)
  {
    if batches == [] then Ok(manifest)
    else
      var project :- Replay(env, manifest, batches[..|batches| - 1]);
      ReplayOne(env, project, batches[|batches| - 1])
  }

  // The loop the daemon runs over the recovered batches.
  method ReplayJournal(env: Environment, manifest: StoredProject, batches: seq<MutationBatch>)
    returns (replayed: Result<StoredProject, JournalError>)
    ensures replayed == Replay(env, manifest, batches)
  {
    var durable := manifest;
    for i := 0 to |batches|
      invariant Replay(env, manifest, batches[..i]) == Ok(durable)
    {
      assert batches[..i + 1][..i] == batches[..i];
      var next := ReplayOne(env, durable, batches[i]);
      if next.Err? {
        ErrorsPropagate(env, manifest, batches, i + 1);
        return Err(next.error);
      }
      durable := next.value;
    }
    assert batches[..|batches|] == batches;
    return Ok(durable);
  }

  lemma {:induction false} ErrorsPropagate(
    env: Environment, manifest: StoredProject, batches: seq<MutationBatch>, count: nat)
    requires count <= |batches|
    requires Replay(env, manifest, batches[..count]).Err?
    ensures Replay(env, manifest, batches) == Replay(env, manifest, batches[..count])
    decreases |batches|
  {
    if count == |batches| {
      assert batches[..count] == batches;
    } else {
      var front := batches[..|batches| - 1];
      assert front[..count] == batches[..count];
      ErrorsPropagate(env, manifest, front, count);
    }
  }

  // What a restart makes of the disk: the manifest plus the batches newer than it.
  function Recover(env: Environment, disk: Disk): (recovered: Result<StoredProject, JournalError>) {
    var scan :- ReadScan(disk);
    Replay(env, disk.manifest, scan.batches)
  }

  // ----- the open writer -----

  datatype Writer = Writer(
    disk: Disk,
    checkpointSequence: u64,
    checkpointRevision: u64,
    headSequence: u64,
    headRevision: u64)

  // Which database or file operation of a call fails, if any.
  datatype CheckpointFault = NoFault | SaveFails | AdvanceFails | TruncateFails
  datatype Faults = Faults(checkpoint: CheckpointFault, appendFails: bool)

  // One call on the writer or the journal: the state it leaves, whether it reported
  // success, and every disk image it made durable on the way, oldest first.
  datatype Outcome<+S> = Outcome(after: S, ok: bool, images: seq<Disk>)

  function AppendBatch(writer: Writer, batch: MutationBatch, fails: bool): (outcome: Outcome<Writer>) {
    var disk := writer.disk;
    var grown := disk.batches + [batch];
    if RecordSize(batch) > MAX_JOURNAL_RECORD_BYTES
       || batch.sequence != writer.headSequence + 1
       || batch.baseRevision != writer.headRevision
       || batch.revision != writer.headRevision + 1
       || batch.sequence - writer.checkpointSequence > MAX_UNAPPLIED_JOURNAL_BATCHES
       || RetainedBytes(grown) > MAX_UNAPPLIED_JOURNAL_BYTES
       || batch.sequence > MAX_ROW || batch.revision > MAX_ROW
       || fails
    then Outcome(writer, false, [])
    else
      var appended := disk.(batches := grown);
      Outcome(writer.(disk := appended, headSequence := batch.sequence, headRevision := batch.revision),
              true, [appended])
  }

  function After(batches: seq<MutationBatch>, sequence: nat): (kept: seq<MutationBatch>) {
    if batches == [] then []
    else if batches[0].sequence > sequence then [batches[0]] + After(batches[1..], sequence)
    else After(batches[1..], sequence)
  }

  function CheckpointAndCompact(writer: Writer, project: StoredProject, sequence: u64, fault: CheckpointFault)
    : (outcome: Outcome<Writer>)
  {
    var applied := sequence - writer.checkpointSequence;
    if sequence < writer.checkpointSequence || sequence > writer.headSequence
       || writer.checkpointRevision + applied > U64_MAX
       || project.position.revision != writer.checkpointRevision + applied
       || fault.SaveFails?
    then Outcome(writer, false, [])
    else
      var saved := writer.disk.(manifest := project);
      if fault.AdvanceFails? || sequence > MAX_ROW || project.position.revision > MAX_ROW then
        Outcome(writer.(disk := saved), false, [saved])
      else
        var compacted := Disk(project, sequence, project.position.revision, After(saved.batches, sequence));
        Outcome(writer.(disk := compacted, checkpointSequence := sequence,
                        checkpointRevision := project.position.revision),
                fault.NoFault?, [saved, compacted])
  }

  // ----- the daemon's durable store -----

  datatype Store = Store(writer: Writer, pending: u64)

  function SaturatingIncrement(count: u64): u64 { if count == U64_MAX then count else count + 1 }

  function SingleRevisionStep(previous: StoredProject, updated: StoredProject): (revision: Option<u64>) {
    if previous.position.revision < U64_MAX && updated.position.revision == previous.position.revision + 1
    then Some(updated.position.revision)
    else None
  }

  function Checkpointed(store: Store, project: StoredProject, fault: CheckpointFault): (outcome: Outcome<Store>) {
    var done := CheckpointAndCompact(store.writer, project, store.writer.headSequence, fault);
    Outcome(Store(done.after, if done.ok then 0 else store.pending), done.ok, done.images)
  }

  function Settled(store: Store, project: StoredProject, fault: CheckpointFault): (outcome: Outcome<Store>) {
    if store.pending == 0 then Outcome(store, true, []) else Checkpointed(store, project, fault)
  }

  function Appended(env: Environment, store: Store, command: CommandMessage, now: u64,
                  previous: StoredProject, updated: StoredProject, fails: bool): (outcome: Outcome<Store>)
  {
    var payload := EncodeMutation(env.codec, command, now, updated.position);
    if store.writer.headSequence == U64_MAX || payload.None? then Outcome(store, false, [])
    else
      var batch := MutationBatch(store.writer.headSequence + 1, previous.position.revision,
                                 updated.position.revision, payload.value);
      var done := AppendBatch(store.writer, batch, fails);
      Outcome(Store(done.after, if done.ok then SaturatingIncrement(store.pending) else store.pending),
              done.ok, done.images)
  }

  function Recorded(env: Environment, store: Store, command: CommandMessage, now: u64,
                  previous: StoredProject, updated: StoredProject, faults: Faults): (outcome: Outcome<Store>)
  {
    if SingleRevisionStep(previous, updated).None? then
      // A refused command: only its receipt changed, and the receipt rides the next checkpoint.
      var counted := store.(pending := SaturatingIncrement(store.pending));
      if counted.pending >= MAX_MUTATIONS_PER_CHECKPOINT then Checkpointed(counted, updated, faults.checkpoint)
      else Outcome(counted, true, [])
    else if store.pending >= MAX_MUTATIONS_PER_CHECKPOINT then
      // At the bound the project so far goes into the manifest first.
      var checkpointed := Checkpointed(store, previous, faults.checkpoint);
      if !checkpointed.ok then checkpointed
      else
        var done := Appended(env, checkpointed.after, command, now, previous, updated, faults.appendFails);
        done.(images := checkpointed.images + done.images)
    else Appended(env, store, command, now, previous, updated, faults.appendFails)
  }

  // The open writer and its pending count. Faults are chosen by the environment; the ghost
  // result lists the disk images the call made durable.
  class DurableJournal {
    const env: Environment
    var writer: Writer
    var pending: u64

    ghost function View(): (store: Store)
      reads this
    {
      Store(writer, pending)
    }

    constructor (env: Environment, writer: Writer)
      ensures this.env == env && View() == Store(writer, 0)
    {
      this.env := env;
      this.writer := writer;
      this.pending := 0;
    }

    method Settle(project: StoredProject, fault: CheckpointFault) returns (ok: bool, ghost images: seq<Disk>)
      modifies this
      ensures Outcome(View(), ok, images) == Settled(old(View()), project, fault)
    {
      if pending == 0 {
        return true, [];
      }
      ok, images := Checkpoint(project, fault);
    }

    method Checkpoint(project: StoredProject, fault: CheckpointFault) returns (ok: bool, ghost images: seq<Disk>)
      modifies this
      ensures Outcome(View(), ok, images) == Checkpointed(old(View()), project, fault)
    {
      var done := CheckpointAndCompact(writer, project, writer.headSequence, fault);
      writer := done.after;
      if done.ok {
        pending := 0;
      }
      return done.ok, done.images;
    }

    method Record(command: CommandMessage, now: u64, previous: StoredProject, updated: StoredProject, faults: Faults)
      returns (ok: bool, ghost images: seq<Disk>)
      modifies this
      ensures Outcome(View(), ok, images)
              == Recorded(env, old(View()), command, now, previous, updated, faults)
    {
      hide AppendBatch, CheckpointAndCompact, EncodeMutation, Checkpointed;
      images := [];
      var step := SingleRevisionStep(previous, updated);
      if step.None? {
        pending := SaturatingIncrement(pending);
        if pending >= MAX_MUTATIONS_PER_CHECKPOINT {
          ok, images := Checkpoint(updated, faults.checkpoint);
          return;
        }
        return true, [];
      }
      if pending >= MAX_MUTATIONS_PER_CHECKPOINT {
        ok, images := Checkpoint(previous, faults.checkpoint);
        if !ok {
          return;
        }
      }
      if writer.headSequence == U64_MAX {
        return false, images;
      }
      var payload := BuildPayload(env.codec, command, now, updated.position);
      if payload.None? {
        return false, images;
      }
      var batch := MutationBatch(writer.headSequence + 1, previous.position.revision, step.value, payload.value);
      var done := AppendBatch(writer, batch, faults.appendFails);
      writer := done.after;
      if done.ok {
        pending := SaturatingIncrement(pending);
      }
      return done.ok, images + done.images;
    }
  }
}
