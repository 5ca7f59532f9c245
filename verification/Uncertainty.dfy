// The worker's recovery state: the command in flight, the wait before a reconnect and the
// ledger of commands whose outcome stays uncertain (apps/freemix-studio/src/native.rs).
module Uncertainty {
  import opened Basics
  import opened Intents

  const TERMINAL_UNCERTAINTY_CAPACITY: nat := 8

  datatype Notice = Notice(command: nat, received: nat)

  // What the client knows about a command when the worker asks.
  datatype CommandStatus = Outstanding | Settled | TerminalUncertain(received: nat)

  datatype Recovery = Recovery(
    pending: Option<nat>,
    waiting: bool,
    realizationUncertain: bool,
    ledger: seq<Notice>)
  {
    predicate Active() { waiting || pending.Some? }

    predicate Lists(command: nat) { exists i :: 0 <= i < |ledger| && ledger[i].command == command }
  }

  const IDLE := Recovery(None, false, false, [])

  datatype Capture = NothingPending | NotUncertain | AlreadyListed | AtCapacity | Captured

  function CaptureOf(recovery: Recovery, status: CommandStatus): Capture {
    if recovery.pending.None? then NothingPending
    else if !status.TerminalUncertain? then NotUncertain
    else if recovery.Lists(recovery.pending.value) then AlreadyListed
    else if |recovery.ledger| == TERMINAL_UNCERTAINTY_CAPACITY then AtCapacity
    else Captured
  }

  function AfterCapture(recovery: Recovery, status: CommandStatus): (after: Recovery) {
    if CaptureOf(recovery, status).Captured? then
      recovery.(ledger := recovery.ledger + [Notice(recovery.pending.value, status.received)])
    else recovery
  }

  // A command sequence that failed, with the answers of the runtime the worker then asks for.
  datatype Failure = Failure(status: CommandStatus, invalidates: bool, recoverable: bool, wait: bool)

  function Failed(recovery: Recovery, failure: Failure): (after: Recovery) {
    var captured := AfterCapture(recovery, failure.status);
    captured.(
      realizationUncertain := captured.realizationUncertain || failure.invalidates,
      waiting := failure.recoverable && failure.wait,
      pending := if failure.recoverable then captured.pending else None)
  }

  // A command starts only if the ledger has room for it.
  function Handled(recovery: Recovery, begun: Option<nat>, failure: Option<Failure>): (after: Recovery) {
    if |recovery.ledger| == TERMINAL_UNCERTAINTY_CAPACITY || begun.None? then recovery
    else
      var sent := recovery.(pending := begun);
      if failure.None? then sent.(pending := None) else Failed(sent, failure.value)
  }

  datatype Reconnect =
    | Connected(snapshot: bool, terminal: bool, failure: Option<Failure>, snapshotGranted: bool)
    | Unexpected
    | ReconnectFailed(resync: bool, recoverable: bool, wait: bool)

  // Finishing the pending command after a reconnect, and asking for a snapshot if the show on
  // screen may no longer be the show on air; `snapshotGranted` is whether that request was taken.
  function Resumed(recovery: Recovery, terminal: bool, failure: Option<Failure>, snapshotGranted: bool)
    : (after: Recovery)
  {
    var resumed :=
      if recovery.pending.None? then recovery
      else if terminal || failure.None? then recovery.(pending := None)
      else Failed(recovery, failure.value);
    if !resumed.waiting && resumed.realizationUncertain then
      (if snapshotGranted then resumed.(waiting := true) else resumed.(pending := None))
    else resumed
  }

  function Reconnected(recovery: Recovery, result: Reconnect): (after: Recovery) {
    match result
    case Connected(snapshot, terminal, failure, snapshotGranted) =>
      var connected := recovery.(
        waiting := false, realizationUncertain := recovery.realizationUncertain && !snapshot);
      Resumed(connected, terminal, failure, snapshotGranted)
    case Unexpected => recovery.(pending := None, waiting := false)
    case ReconnectFailed(resync, recoverable, wait) =>
      recovery.(realizationUncertain := recovery.realizationUncertain || resync,
                waiting := recoverable && wait,
                pending := if recoverable then recovery.pending else None)
  }

  // The recovery state as the worker updates it.
  class WorkerRecovery {
    var pendingCommand: Option<nat>
    var deferredIntents: seq<Item>
    var reconnectWait: bool
    var realizationUncertain: bool
    var deferredRejections: nat
    var terminalUncertainties: seq<Notice>

    ghost function View(): (recovery: Recovery)
      reads this
    {
      Recovery(pendingCommand, reconnectWait, realizationUncertain, terminalUncertainties)
    }

    constructor (wait: bool)
      ensures View() == IDLE.(waiting := wait) && deferredIntents == [] && deferredRejections == 0
    {
      pendingCommand, deferredIntents, reconnectWait := None, [], wait;
      realizationUncertain, deferredRejections, terminalUncertainties := false, 0, [];
    }

    method DeferIntent(item: Item)
      modifies this
      ensures View() == old(View())
      ensures var pushed := Pushed(old(deferredIntents), item, DEFERRED_INTENT_CAPACITY);
              && deferredIntents == (if pushed.Some? then pushed.value else old(deferredIntents))
              && deferredRejections == (if pushed.None? && old(deferredRejections) < U64_MAX
                                        then old(deferredRejections) + 1 else old(deferredRejections))
    {
      if deferredIntents != [] {
        var tail := deferredIntents[|deferredIntents| - 1];
        var merged := Coalesced(tail.intent, item.intent);
        if merged.Some? {
          deferredIntents := deferredIntents[..|deferredIntents| - 1] + [Item(merged.value, tail.ids + item.ids)];
          return;
        }
      }
      if |deferredIntents| == DEFERRED_INTENT_CAPACITY {
        deferredRejections := if deferredRejections < U64_MAX then deferredRejections + 1 else deferredRejections;
        return;
      }
      deferredIntents := deferredIntents + [item];
    }

    method CapturePendingTerminalUncertainty(status: CommandStatus) returns (captured: bool)
      modifies this`terminalUncertainties
      ensures View() == AfterCapture(old(View()), status)
      ensures captured <==> CaptureOf(old(View()), status).AlreadyListed? || CaptureOf(old(View()), status).Captured?
    {
      if pendingCommand.None? || !status.TerminalUncertain? {
        return false;
      }
      var index := 0;
      while index < |terminalUncertainties| && terminalUncertainties[index].command != pendingCommand.value
        invariant 0 <= index <= |terminalUncertainties|
        invariant forall i :: 0 <= i < index ==> terminalUncertainties[i].command != pendingCommand.value
      {
        index := index + 1;
      }
      if index < |terminalUncertainties| {
        return true;
      }
      if |terminalUncertainties| == TERMINAL_UNCERTAINTY_CAPACITY {
        return false;
      }
      terminalUncertainties := terminalUncertainties + [Notice(pendingCommand.value, status.received)];
      return true;
    }

    method AbsorbFailure(failure: Failure)
      modifies this
      ensures View() == Failed(old(View()), failure)
      ensures deferredIntents == old(deferredIntents) && deferredRejections == old(deferredRejections)
    {
      var _ := CapturePendingTerminalUncertainty(failure.status);
      if failure.invalidates {
        realizationUncertain := true;
      }
      if failure.recoverable {
        reconnectWait := failure.wait;
      } else {
        pendingCommand, reconnectWait := None, false;
      }
    }

    method HandleIntent(begun: Option<nat>, failure: Option<Failure>)
      modifies this
      ensures View() == Handled(old(View()), begun, failure)
    {
      if |terminalUncertainties| == TERMINAL_UNCERTAINTY_CAPACITY || begun.None? {
        return;
      }
      pendingCommand := begun;
      if failure.None? {
        pendingCommand := None;
      } else {
        AbsorbFailure(failure.value);
      }
    }

    method ResumePendingCommand(terminal: bool, failure: Option<Failure>, snapshotGranted: bool)
      modifies this
      ensures View() == Resumed(old(View()), terminal, failure, snapshotGranted)
      ensures deferredIntents == old(deferredIntents) && deferredRejections == old(deferredRejections)
    {
      if pendingCommand.Some? {
        if terminal || failure.None? {
          pendingCommand := None;
        } else {
          AbsorbFailure(failure.value);
        }
      }
      if !reconnectWait && realizationUncertain {
        if snapshotGranted {
          reconnectWait := true;
        } else {
          pendingCommand := None;
        }
      }
    }

    method HandleReconnect(result: Reconnect)
      modifies this
      ensures View() == Reconnected(old(View()), result)
      ensures deferredIntents == old(deferredIntents) && deferredRejections == old(deferredRejections)
    {
      match result
      case Connected(snapshot, terminal, failure, snapshotGranted) =>
        reconnectWait := false;
        if snapshot {
          realizationUncertain := false;
        }
        ResumePendingCommand(terminal, failure, snapshotGranted);
      case Unexpected => pendingCommand, reconnectWait := None, false;
      case ReconnectFailed(resync, recoverable, wait) =>
        if resync {
          realizationUncertain := true;
        }
        if recoverable {
          reconnectWait := wait;
        } else {
          pendingCommand, reconnectWait := None, false;
        }
    }
  }

  // ----- every run of the worker -----

  datatype Step =
    | HandleCommand(begun: Option<nat>, failure: Option<Failure>)
    | ReconnectDue(result: Reconnect)
    | IdleLoss(uncertain: Option<bool>, wait: Option<bool>)
    | HeartbeatLoss(viewKept: bool, waitGranted: bool)

  // The worker's loop takes a new command only while nothing is active.
  function Next(recovery: Recovery, step: Step): (after: Recovery) {
    match step
    case HandleCommand(begun, failure) => if recovery.Active() then recovery else Handled(recovery, begun, failure)
    case ReconnectDue(result) => if recovery.waiting then Reconnected(recovery, result) else recovery
    case IdleLoss(uncertain, wait) =>
      if recovery.Active() then recovery
      else recovery.(realizationUncertain := OrElse(uncertain, recovery.realizationUncertain),
                     waiting := OrElse(wait, recovery.waiting))
    case HeartbeatLoss(viewKept, waitGranted) =>
      if recovery.waiting then recovery
      else recovery.(realizationUncertain := viewKept, waiting := waitGranted)
  }

  // The failure a step reports on a command that was in flight, if any.
  function Reported(recovery: Recovery, step: Step): (report: Option<(nat, Failure)>) {
    match step
    case HandleCommand(begun, failure) =>
      if !recovery.Active() && |recovery.ledger| != TERMINAL_UNCERTAINTY_CAPACITY && begun.Some? && failure.Some?
      then Some((begun.value, failure.value)) else None
    case ReconnectDue(Connected(_, terminal, failure, _)) =>
      if recovery.waiting && recovery.pending.Some? && !terminal && failure.Some?
      then Some((recovery.pending.value, failure.value)) else None
    case _ => None
  }

  // The command a step puts in flight, if any.
  function Starts(recovery: Recovery, step: Step): Option<nat> {
    if step.HandleCommand? && !recovery.Active() && |recovery.ledger| != TERMINAL_UNCERTAINTY_CAPACITY
    then step.begun else None
  }

  function RunFrom(recovery: Recovery, steps: seq<Step>): (after: Recovery) {
    if steps == [] then recovery
    else Next(RunFrom(recovery, steps[..|steps| - 1]), steps[|steps| - 1])
  }

  // A pending command either has room in the ledger or is listed already.
  ghost predicate Roomy(recovery: Recovery) {
    && |recovery.ledger| <= TERMINAL_UNCERTAINTY_CAPACITY
    && (forall i, j :: 0 <= i < j < |recovery.ledger| ==> recovery.ledger[i].command != recovery.ledger[j].command)
    && (recovery.pending.Some? ==>
          |recovery.ledger| < TERMINAL_UNCERTAINTY_CAPACITY || recovery.Lists(recovery.pending.value))
  }

  // Every failure with an uncertain outcome ends up listed; the capacity branch is never taken.
  lemma FailureIsListed(recovery: Recovery, failure: Failure)
    requires Roomy(recovery) && recovery.pending.Some?
    ensures Roomy(Failed(recovery, failure))
    ensures !CaptureOf(recovery, failure.status).AtCapacity?
    ensures recovery.ledger <= Failed(recovery, failure).ledger
    ensures failure.status.TerminalUncertain? ==> Failed(recovery, failure).Lists(recovery.pending.value)
    ensures !failure.status.TerminalUncertain? ==> Failed(recovery, failure).ledger == recovery.ledger
  {
    var after := Failed(recovery, failure);
    if CaptureOf(recovery, failure.status).Captured? {
      assert after.ledger[|recovery.ledger|].command == recovery.pending.value;
    }
  }

  lemma ResumedIsRoomy(recovery: Recovery, terminal: bool, failure: Option<Failure>, snapshotGranted: bool)
    requires Roomy(recovery)
    ensures Roomy(Resumed(recovery, terminal, failure, snapshotGranted))
    ensures recovery.ledger <= Resumed(recovery, terminal, failure, snapshotGranted).ledger
    ensures recovery.pending.Some? && !terminal && failure.Some? ==>
              Resumed(recovery, terminal, failure, snapshotGranted).ledger == Failed(recovery, failure.value).ledger
    ensures recovery.pending.None? || terminal || failure.None? ==>
              Resumed(recovery, terminal, failure, snapshotGranted).ledger == recovery.ledger
  {
    if recovery.pending.Some? && !terminal && failure.Some? {
      FailureIsListed(recovery, failure.value);
      var failed := Failed(recovery, failure.value);
      SameLedgerIsRoomy(failed, failed.(pending := None));
      SameLedgerIsRoomy(failed, failed.(waiting := true));
    } else {
      SameLedgerIsRoomy(recovery, Resumed(recovery, terminal, failure, snapshotGranted));
    }
  }

  lemma SameLedgerIsRoomy(before: Recovery, after: Recovery)
    requires Roomy(before) && after.ledger == before.ledger
    requires after.pending == before.pending || after.pending.None? || |after.ledger| < TERMINAL_UNCERTAINTY_CAPACITY
    ensures Roomy(after)
  {
    if after.pending.Some? && |after.ledger| == TERMINAL_UNCERTAINTY_CAPACITY {
      var i :| 0 <= i < |before.ledger| && before.ledger[i].command == before.pending.value;
      assert after.ledger[i].command == after.pending.value;
    }
  }

  // One step keeps the invariant, keeps every notice, lists the uncertain outcome it reports
  // and adds nothing else.
  lemma NextIsRoomy(recovery: Recovery, step: Step)
    requires Roomy(recovery)
    ensures Roomy(Next(recovery, step))
    ensures recovery.ledger <= Next(recovery, step).ledger
    ensures var report := Reported(recovery, step);
            if report.Some? && report.value.1.status.TerminalUncertain?
            then Next(recovery, step).Lists(report.value.0)
            else Next(recovery, step).ledger == recovery.ledger
    ensures |recovery.ledger| == TERMINAL_UNCERTAINTY_CAPACITY ==> Starts(recovery, step).None?
  {
    var after := Next(recovery, step);
    var report := Reported(recovery, step);
    match step
    case HandleCommand(begun, failure) =>
      if !recovery.Active() && begun.Some? && |recovery.ledger| < TERMINAL_UNCERTAINTY_CAPACITY {
        var sent := recovery.(pending := begun);
        SameLedgerIsRoomy(recovery, sent);
        if failure.Some? {
          FailureIsListed(sent, failure.value);
        } else {
          SameLedgerIsRoomy(recovery, after);
        }
      }
    case ReconnectDue(result) =>
      if recovery.waiting && result.Connected? {
        var connected := recovery.(
          waiting := false, realizationUncertain := recovery.realizationUncertain && !result.snapshot);
        SameLedgerIsRoomy(recovery, connected);
        ResumedIsRoomy(connected, result.terminal, result.failure, result.snapshotGranted);
        if report.Some? {
          FailureIsListed(connected, report.value.1);
          ListsDependsOnLedger(Failed(connected, report.value.1), after, report.value.0);
        }
      } else {
        SameLedgerIsRoomy(recovery, after);
      }
    case IdleLoss(_, _) => SameLedgerIsRoomy(recovery, after);
    case HeartbeatLoss(_, _) => SameLedgerIsRoomy(recovery, after);
  }

  lemma ListsDependsOnLedger(left: Recovery, right: Recovery, command: nat)
    requires left.ledger == right.ledger
    ensures left.Lists(command) <==> right.Lists(command)
  {
    assert left.Lists(command) ==> right.Lists(command) by {
      if left.Lists(command) {
        var i :| 0 <= i < |left.ledger| && left.ledger[i].command == command;
        assert right.ledger[i].command == command;
      }
    }
    assert right.Lists(command) ==> left.Lists(command) by {
      if right.Lists(command) {
        var i :| 0 <= i < |right.ledger| && right.ledger[i].command == command;
        assert left.ledger[i].command == command;
      }
    }
  }

  lemma {:induction false} EveryRunIsRoomy(recovery: Recovery, steps: seq<Step>)
    requires Roomy(recovery)
    ensures Roomy(RunFrom(recovery, steps)) && recovery.ledger <= RunFrom(recovery, steps).ledger
  {
    if steps != [] {
      EveryRunIsRoomy(recovery, steps[..|steps| - 1]);
      NextIsRoomy(RunFrom(recovery, steps[..|steps| - 1]), steps[|steps| - 1]);
    }
  }

  // The state in which a step that reports a failure captures it: a command just sent, or a
  // pending one just after the reconnect.
  function Capturing(recovery: Recovery, step: Step): (at: Recovery)
    requires Reported(recovery, step).Some?
  {
    match step
    case HandleCommand(begun, _) => recovery.(pending := begun)
    case ReconnectDue(Connected(snapshot, _, _, _)) =>
      recovery.(waiting := false, realizationUncertain := recovery.realizationUncertain && !snapshot)
    case _ => recovery
  }

  // A step that reports a failure is the capture in that state, up to what follows it.
  lemma CaptureHappensThere(recovery: Recovery, step: Step)
    requires Reported(recovery, step).Some?
    ensures Capturing(recovery, step).pending == Some(Reported(recovery, step).value.0)
    ensures Next(recovery, step).ledger ==
              AfterCapture(Capturing(recovery, step), Reported(recovery, step).value.1.status).ledger
  {
  }

  // On every run the ledger has at most eight notices and no command twice, and no capture,
  // made where a step makes it, ever finds the ledger full.
  lemma LedgerNeverOverflows(wait: bool, steps: seq<Step>, step: Step)
    ensures var recovery := RunFrom(IDLE.(waiting := wait), steps);
            var report := Reported(recovery, step);
            && |recovery.ledger| <= TERMINAL_UNCERTAINTY_CAPACITY
            && (forall i, j :: 0 <= i < j < |recovery.ledger| ==> recovery.ledger[i].command != recovery.ledger[j].command)
            && (report.Some? ==> !CaptureOf(Capturing(recovery, step), report.value.1.status).AtCapacity?)
  {
    EveryRunIsRoomy(IDLE.(waiting := wait), steps);
    var recovery := RunFrom(IDLE.(waiting := wait), steps);
    if Reported(recovery, step).Some? {
      CaptureHappensThere(recovery, step);
      SameLedgerIsRoomy(recovery, Capturing(recovery, step));
      FailureIsListed(Capturing(recovery, step), Reported(recovery, step).value.1);
    }
  }

  // Whenever a step of a run reports an uncertain outcome, the command is listed from then on,
  // however the run continues; notices keep their places.
  lemma UncertaintyIsNeverForgotten(wait: bool, before: seq<Step>, step: Step, later: seq<Step>)
    ensures var at := RunFrom(IDLE.(waiting := wait), before);
            var end := RunFrom(Next(at, step), later);
            var report := Reported(at, step);
            && at.ledger <= end.ledger
            && (report.Some? && report.value.1.status.TerminalUncertain? ==> end.Lists(report.value.0))
  {
    var at := RunFrom(IDLE.(waiting := wait), before);
    EveryRunIsRoomy(IDLE.(waiting := wait), before);
    NextIsRoomy(at, step);
    var next := Next(at, step);
    EveryRunIsRoomy(next, later);
    var end, report := RunFrom(next, later), Reported(at, step);
    assert at.ledger <= next.ledger <= end.ledger;
    if report.Some? && report.value.1.status.TerminalUncertain? {
      var i :| 0 <= i < |next.ledger| && next.ledger[i].command == report.value.0;
      assert end.ledger[i] == next.ledger[i];
    }
  }

  // Once eight outcomes are uncertain no further command is ever started.
  lemma FullLedgerStopsCommands(wait: bool, before: seq<Step>, later: seq<Step>, step: Step)
    requires |RunFrom(IDLE.(waiting := wait), before).ledger| == TERMINAL_UNCERTAINTY_CAPACITY
    ensures var at := RunFrom(RunFrom(IDLE.(waiting := wait), before), later);
            && at.ledger == RunFrom(IDLE.(waiting := wait), before).ledger
            && Starts(at, step).None?
  {
    var full := RunFrom(IDLE.(waiting := wait), before);
    EveryRunIsRoomy(IDLE.(waiting := wait), before);
    EveryRunIsRoomy(full, later);
  }
}
