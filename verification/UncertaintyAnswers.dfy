// When a command stops being pending, when the worker waits for a reconnect, and when the show
// on screen may no longer be the show on air.
module UncertaintyAnswers {
  import opened Basics
  import opened Uncertainty

  // The command that is in flight while a step runs: the one it starts or the one pending.
  function InFlight(recovery: Recovery, step: Step): Option<nat> {
    if Starts(recovery, step).Some? then Starts(recovery, step) else recovery.pending
  }

  // The step is a reconnect that is due and connects.
  predicate Connects(recovery: Recovery, step: Step) {
    recovery.waiting && step.ReconnectDue? && step.result.Connected?
  }

  // The failure that the step reports on the command in flight leads to another reconnect.
  predicate Retries(recovery: Recovery, step: Step) {
    var report := Reported(recovery, step);
    report.Some? && report.value.1.recoverable && report.value.1.wait
  }

  predicate Invalidated(recovery: Recovery, step: Step) {
    var report := Reported(recovery, step);
    report.Some? && report.value.1.invalidates
  }

  // After it connected, and unless it reconnects at once anyway, the worker asks for a snapshot
  // if what it shows is still uncertain.
  predicate AsksForSnapshot(recovery: Recovery, step: Step) {
    && Connects(recovery, step)
    && ((recovery.realizationUncertain && !step.result.snapshot) || Invalidated(recovery, step))
    && !Retries(recovery, step)
  }

  // The command in flight succeeded or is terminal, failed for good, lost its reconnect, or was
  // given up with a snapshot request that was refused.
  predicate Settles(recovery: Recovery, step: Step) {
    match step
    case HandleCommand(_, failure) =>
      Starts(recovery, step).Some? && (failure.None? || !failure.value.recoverable)
    case ReconnectDue(Connected(_, terminal, failure, snapshotGranted)) =>
      && recovery.waiting
      && (terminal || failure.None? || !failure.value.recoverable
          || (AsksForSnapshot(recovery, step) && !snapshotGranted))
    case ReconnectDue(Unexpected) => recovery.waiting
    case ReconnectDue(ReconnectFailed(_, recoverable, _)) => recovery.waiting && !recoverable
    case _ => false
  }

  // A command is pending after a step exactly if it was in flight and the step did not settle it.
  lemma PendingExactly(recovery: Recovery, step: Step)
    ensures Next(recovery, step).pending == if Settles(recovery, step) then None else InFlight(recovery, step)
  {
    hide CaptureOf;
  }

  // The worker waits after a failure exactly if it can recover and a wait was granted, and after
  // a connection exactly if it retries or its snapshot request was granted.
  lemma WaitsExactly(recovery: Recovery, step: Step)
    ensures var after, report := Next(recovery, step), Reported(recovery, step);
            && (step.HandleCommand? ==>
                  after.waiting == (if report.Some? then Retries(recovery, step) else recovery.waiting))
            && (Connects(recovery, step) ==>
                  (after.waiting <==>
                    Retries(recovery, step) || (AsksForSnapshot(recovery, step) && step.result.snapshotGranted)))
            && (recovery.waiting && step.ReconnectDue? && step.result.Unexpected? ==> !after.waiting)
            && (recovery.waiting && step.ReconnectDue? && step.result.ReconnectFailed? ==>
                  (after.waiting <==> step.result.recoverable && step.result.wait))
            && (!recovery.waiting && step.ReconnectDue? ==> after == recovery)
  {
    hide CaptureOf;
  }

  // What is shown becomes uncertain by a failure that invalidates it or a reconnect that needs a
  // resync, and certain again only by a snapshot or by what an idle loss or a heartbeat finds.
  lemma UncertainExactly(recovery: Recovery, step: Step)
    requires step.HandleCommand? || (recovery.waiting && step.ReconnectDue?)
    ensures var kept := recovery.realizationUncertain && !(Connects(recovery, step) && step.result.snapshot);
            var resyncs := step.ReconnectDue? && step.result.ReconnectFailed? && step.result.resync;
            Next(recovery, step).realizationUncertain <==> kept || resyncs || Invalidated(recovery, step)
  {
    hide CaptureOf;
  }

  // A loss while idle, and one at a heartbeat, only decide the wait and what is uncertain.
  lemma LossesDecideTheWait(recovery: Recovery, step: Step)
    requires step.IdleLoss? || step.HeartbeatLoss?
    ensures var after := Next(recovery, step);
            && after.pending == recovery.pending && after.ledger == recovery.ledger
            && (step.HeartbeatLoss? && !recovery.waiting ==>
                  (after.waiting <==> step.waitGranted) && (after.realizationUncertain <==> step.viewKept))
            && (step.IdleLoss? && !recovery.waiting && recovery.pending.None? ==>
                  && (step.wait.Some? ==> (after.waiting <==> step.wait.value))
                  && (step.uncertain.Some? ==> (after.realizationUncertain <==> step.uncertain.value))
                  && (step.uncertain.None? ==> after.realizationUncertain == recovery.realizationUncertain))
            && (recovery.waiting ==> after == recovery)
  {
  }

  // A command starts exactly if nothing is pending or awaited, the ledger has room and the
  // intent could be begun.
  lemma StartsExactly(wait: bool, steps: seq<Step>, step: Step)
    ensures var recovery := RunFrom(IDLE.(waiting := wait), steps);
            Starts(recovery, step).Some? <==>
              && step.HandleCommand? && step.begun.Some?
              && !recovery.waiting && recovery.pending.None? && |recovery.ledger| < 8
  {
    EveryRunIsRoomy(IDLE.(waiting := wait), steps);
  }

  // No step of the run settles what is in flight.
  predicate Unsettled(recovery: Recovery, steps: seq<Step>) {
    forall i :: 0 <= i < |steps| ==> !Settles(RunFrom(recovery, steps[..i]), steps[i])
  }

  // On every run a command that starts stays pending, whatever else happens, until a step
  // settles it, and after that step it is pending no more.
  lemma {:induction false} PendingUntilSettled(wait: bool, before: seq<Step>, start: Step, later: seq<Step>, last: Step)
    requires var at := RunFrom(IDLE.(waiting := wait), before);
             && Starts(at, start).Some? && !Settles(at, start)
             && Unsettled(Next(at, start), later)
    ensures var at := RunFrom(IDLE.(waiting := wait), before);
            var end := RunFrom(Next(at, start), later);
            && end.pending == Starts(at, start)
            && (Next(end, last).pending == (if Settles(end, last) then None else Starts(at, start)))
  {
    var at := RunFrom(IDLE.(waiting := wait), before);
    var next := Next(at, start);
    var end := RunFrom(next, later);
    hide Settles, Next;
    PendingExactly(at, start);
    if later != [] {
      var front := later[..|later| - 1];
      assert forall i :: 0 <= i < |front| ==> front[..i] == later[..i] && front[i] == later[i];
      assert Unsettled(next, front);
      PendingUntilSettled(wait, before, start, front, later[|later| - 1]);
    }
    PendingExactly(end, last);
  }
}
