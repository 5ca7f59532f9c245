// The durable project and the command state machine that decides commands
// (crates/foundation/fm-command/src/machine.rs), as the daemon persists them.
module Engine {
  import opened Basics
  import opened Codec

  datatype Receipt =
    | AcceptedReceipt(commandId: string, revision: u64)
    | RejectedReceipt(commandId: string, currentRevision: u64)

  // What the manifest holds: the show, its position and one receipt per idempotency key.
  datatype StoredProject = StoredProject(
    show: seq<byte>,
    position: ProjectPosition,
    receipts: map<string, Receipt>)

  // The domain part of a decision: a rejected mutation, or the show and position it
  // leaves behind. The revision is not the mutation's to choose.
  datatype Decision = Reject | Accept(show: seq<byte>, position: ProjectPosition)

  // Everything the daemon is built on but this model does not open up.
  datatype Environment = Environment(
    codec: LineCodec,
    decide: (seq<byte>, ProjectPosition, CommandMessage, u64) -> Decision)

  datatype Execution = Replayed | Prepared(updated: StoredProject, accepted: bool)

  function Rejected(project: StoredProject, command: CommandMessage): (execution: Execution) {
    Prepared(
      project.(receipts := project.receipts[command.idempotencyKey :=
        RejectedReceipt(command.id, project.position.revision)]),
      false)
  }

  // Staging a command: a known key is answered from its receipt, anything else is decided
  // on the show and position alone, and acceptance moves the revision by exactly one.
  function Execute(env: Environment, project: StoredProject, command: CommandMessage, now: u64)
    : (execution: Execution)
  {
    if command.idempotencyKey in project.receipts then Replayed
    else if command.deadlineMs.Some? && now > command.deadlineMs.value then Rejected(project, command)
    else if command.expectedRevision.Some? && command.expectedRevision.value != project.position.revision then
      Rejected(project, command)
    else
      match env.decide(project.show, project.position, command, now)
      case Reject => Rejected(project, command)
      case Accept(show, position) =>
        if project.position.revision == U64_MAX then Rejected(project, command)
        else
          var revision := project.position.revision + 1;
          Prepared(
            StoredProject(show, position.(revision := revision),
                          project.receipts[command.idempotencyKey := AcceptedReceipt(command.id, revision)]),
            true)
  }

  // The project without the receipts of refused commands: what a crash may not lose.
  function Core(project: StoredProject): (core: StoredProject)
    ensures forall k :: k in core.receipts <==> k in project.receipts && project.receipts[k].AcceptedReceipt?
    ensures core.position == project.position
  {
    project.(receipts :=
      map k | k in project.receipts && project.receipts[k].AcceptedReceipt? :: project.receipts[k])
  }

  // A new acceptance joins the core, a new refusal does not.
  lemma CoreOfAccepted(project: StoredProject, updated: StoredProject, key: string, receipt: Receipt)
    requires receipt.AcceptedReceipt? && updated.receipts == project.receipts[key := receipt]
    requires key !in project.receipts
    ensures Core(updated) == updated.(receipts := Core(project).receipts[key := receipt])
  {
    assert Core(updated).receipts == Core(project).receipts[key := receipt];
  }

  lemma CoreOfRejected(project: StoredProject, key: string, receipt: Receipt)
    requires receipt.RejectedReceipt? && key !in project.receipts
    ensures Core(project.(receipts := project.receipts[key := receipt])) == Core(project)
  {
    assert Core(project.(receipts := project.receipts[key := receipt])).receipts == Core(project).receipts;
  }

  lemma CoresShareState(left: StoredProject, right: StoredProject)
    requires Core(left) == Core(right)
    ensures left.show == right.show && left.position == right.position
    ensures Core(left).receipts == Core(right).receipts
  {
    assert Core(left).show == left.show && Core(right).show == right.show;
  }

  // Refused receipts do not take part in a decision.
  lemma DecisionsIgnoreRefusals(
    env: Environment, left: StoredProject, right: StoredProject, command: CommandMessage, now: u64)
    requires Core(left) == Core(right)
    requires command.idempotencyKey !in left.receipts && command.idempotencyKey !in right.receipts
    ensures Execute(env, left, command, now).Prepared? && Execute(env, right, command, now).Prepared?
    ensures var l, r := Execute(env, left, command, now), Execute(env, right, command, now);
            && l.accepted == r.accepted
            && l.updated.position == r.updated.position
            && Core(l.updated) == Core(r.updated)
            && (!l.accepted ==> Core(l.updated) == Core(left))
  {
    var l, r := Execute(env, left, command, now), Execute(env, right, command, now);
    CoresShareState(left, right);
    ExecutionOnCore(env, left, command, now);
    ExecutionOnCore(env, right, command, now);
    hide Core;
  }

  // The core of the outcome in terms of the core before.
  lemma ExecutionOnCore(env: Environment, project: StoredProject, command: CommandMessage, now: u64)
    requires command.idempotencyKey !in project.receipts
    ensures var execution := Execute(env, project, command, now);
            && execution.Prepared?
            && (!execution.accepted ==> Core(execution.updated) == Core(project))
            && (execution.accepted ==>
                  Core(execution.updated) == execution.updated.(receipts := Core(project).receipts[
                    command.idempotencyKey := AcceptedReceipt(command.id, project.position.revision + 1)]))
  {
    var execution, key := Execute(env, project, command, now), command.idempotencyKey;
    if execution.accepted {
      CoreOfAccepted(project, execution.updated, key, AcceptedReceipt(command.id, project.position.revision + 1));
    } else {
      CoreOfRejected(project, key, RejectedReceipt(command.id, project.position.revision));
    }
    hide Core;
  }

  // A core is its own core, so states that agree on it can be compared through it.
  lemma CoreOfCore(project: StoredProject)
    ensures Core(Core(project)) == Core(project)
  {
    assert Core(Core(project)).receipts == Core(project).receipts;
  }
}
