// A run from the very start of a connection that loses its framing in the last write pass.
module PeerWitness {
  import opened Basics
  import opened Wire
  import opened Peer
  import opened PeerRun
  import opened PeerLedger
  import opened PeerFraming

  const LINE: seq<byte> := [3, NEWLINE]

  // Every message is the same two-byte line.
  function SmallWorld(): Environment { Environment((message: Message) => Some(LINE), 1, 1) }

  const WHOLE_WRITE := Write(Accepts(2), WouldBlock, true, WebAnswer(None, true))

  // A studio connects, is synchronized and becomes active, a meter and a status record arrive.
  const APPROACH: seq<Step> :=
    [Establish(SnapshotSync, true, true), Feed(true), WHOLE_WRITE, WHOLE_WRITE, BecomeActive,
     ReplaceMeter([1, NEWLINE]), ReplaceStatus([2, NEWLINE])]

  // The socket takes one byte of the meter record and then all of the status record.
  const SHORT_WRITE := Write(Accepts(1), Accepts(2), true, WebAnswer(None, true))

  lemma SmallWorldEncodesLines()
    ensures EncodesLines(SmallWorld())
  {
  }

  function Reached(count: nat): (trace: Trace)
    requires EncodesLines(SmallWorld()) && count <= |APPROACH|
    ensures Sound(SmallWorld(), trace)
  {
    RunOf(SmallWorld(), Raw, 0, APPROACH[..count])
  }

  lemma ReachedNext(count: nat)
    requires EncodesLines(SmallWorld()) && count < |APPROACH|
    ensures WriteReady(Reached(count).peer)
    ensures Reached(count + 1) == Next(SmallWorld(), Reached(count), APPROACH[count])
  {
    hide EncodesLines, Next;
    var steps := APPROACH[..count + 1];
    assert steps[..|steps| - 1] == APPROACH[..count] && steps[|steps| - 1] == APPROACH[count];
    SoundIsWriteReady(SmallWorld(), Reached(count));
  }

  // A raw studio peer with `waiting` unsent lines and empty slots.
  ghost predicate Unsent(trace: Trace, phase: Phase, waiting: nat, syncing: nat) {
    && trace.open && trace.peer.transport.Raw? && trace.peer.lossy && trace.peer.phase == phase
    && trace.peer.session.Some? && trace.peer.subscription.Some?
    && trace.peer.meter == EMPTY_SLOT && trace.peer.status == EMPTY_SLOT
    && |trace.peer.outbound| == waiting && |trace.peer.initialSync| == syncing
    && forall i :: 0 <= i < waiting ==> trace.peer.outbound[i].write == PendingWrite(LINE, 0)
  }

  lemma QueueingInSmallWorld(peer: PeerState, message: Message)
    requires |peer.outbound| < OUTBOUND_CAPACITY && peer.session.Some?
    ensures var queued := Queued(SmallWorld(), peer, message, SessionAccounting, true);
            && queued.Some?
            && queued.value == peer.(session := queued.value.session, outbound := queued.value.outbound)
            && queued.value.session.Some?
            && |queued.value.outbound| == |peer.outbound| + 1
            && queued.value.outbound[..|peer.outbound|] == peer.outbound
            && queued.value.outbound[|peer.outbound|].write == PendingWrite(LINE, 0)
  {
  }

  lemma Connecting()
    ensures Unsent(Next(SmallWorld(), Start(Raw, 0), Establish(SnapshotSync, true, true)), Syncing, 1, 1)
  {
    var prepared := NewPeer(Raw).(initialSync := [Snapshot(0)], session := Some(NEW_SESSION),
                                  subscription := Some(Subscription([], false)), lossy := true);
    QueueingInSmallWorld(prepared, HandshakeResponse(true));
    hide Queued;
  }

  lemma Feeding(trace: Trace)
    requires WriteReady(trace.peer) && Unsent(trace, Syncing, 1, 1)
    ensures Unsent(Next(SmallWorld(), trace, Feed(true)), Syncing, 2, 0)
  {
    var peer := trace.peer;
    QueueingInSmallWorld(peer.(initialSync := peer.initialSync[1..]), peer.initialSync[0]);
    hide Queued, SmallWorld, WriteReady;
  }

  lemma Sending(env: Environment, trace: Trace, waiting: nat)
    requires Sound(env, trace) && WriteReady(trace.peer) && waiting > 0 && Unsent(trace, Syncing, waiting, 0)
    ensures Unsent(Next(env, trace, WHOLE_WRITE), Syncing, waiting - 1, 0)
  {
    FinishKeepsAlignment(trace.peer);
    hide Aligned, Shaped;
    assert WriteOnce(trace.peer.outbound[0].write, Accepts(2)).progress.Complete?;
    CompletedFacts(trace.peer, Accepts(2), WouldBlock);
    hide WriteRaw, FinishOutbound, WriteOnce;
  }

  lemma CompletedFacts(peer: PeerState, first: WriteAnswer, second: WriteAnswer)
    requires WriteReady(peer) && peer.outbound != [] && !peer.meter.Started() && !peer.status.Started()
    requires WriteOnce(peer.outbound[0].write, first).progress.Complete?
    ensures var after := WriteRaw(peer, first, second);
            && after.outcome == FinishOutbound(peer).outcome
            && after.peer == peer.(outbound := peer.outbound[1..], session := after.peer.session,
                                   handshakeWritten := after.peer.handshakeWritten)
            && (after.peer.session.Some? <==> peer.session.Some?)
  {
    hide WriteOnce, WriteSlot, LineShaped;
  }

  lemma Activating(env: Environment, trace: Trace)
    requires WriteReady(trace.peer) && Unsent(trace, Syncing, 0, 0)
    ensures Unsent(Next(env, trace, BecomeActive), Active, 0, 0)
  {
    hide WriteReady;
  }

  ghost predicate Slots(trace: Trace, meter: LatestRecord, status: LatestRecord) {
    && trace.open && trace.peer.transport.Raw? && trace.peer.lossy && trace.peer.phase.Active?
    && trace.peer.outbound == [] && trace.peer.meter == meter && trace.peer.status == status
  }

  lemma Metering(env: Environment, trace: Trace)
    requires WriteReady(trace.peer) && Unsent(trace, Active, 0, 0)
    ensures Slots(Next(env, trace, ReplaceMeter([1, NEWLINE])), EMPTY_SLOT.Replace([1, NEWLINE]), EMPTY_SLOT)
  {
    assert LineShaped([1, NEWLINE]);
    hide LineShaped, WriteReady;
  }

  lemma Reporting(env: Environment, trace: Trace, meter: LatestRecord)
    requires WriteReady(trace.peer) && Slots(trace, meter, EMPTY_SLOT)
    ensures Slots(Next(env, trace, ReplaceStatus([2, NEWLINE])), meter, EMPTY_SLOT.Replace([2, NEWLINE]))
  {
    assert LineShaped([2, NEWLINE]);
    hide LineShaped, WriteReady;
  }

  lemma ApproachSteps()
    ensures |APPROACH| == 7 && APPROACH[0] == Establish(SnapshotSync, true, true) && APPROACH[1] == Feed(true)
    ensures APPROACH[2] == WHOLE_WRITE && APPROACH[3] == WHOLE_WRITE && APPROACH[4] == BecomeActive
    ensures APPROACH[5] == ReplaceMeter([1, NEWLINE]) && APPROACH[6] == ReplaceStatus([2, NEWLINE])
  {
  }

  lemma StartIsReached()
    requires EncodesLines(SmallWorld())
    ensures Reached(0) == Start(Raw, 0)
  {
    assert APPROACH[..0] == [];
    hide EncodesLines;
  }

  lemma ApproachStages()
    requires EncodesLines(SmallWorld())
    ensures Unsent(Reached(2), Syncing, 2, 0) && Unsent(Reached(3), Syncing, 1, 0)
    ensures Slots(Reached(7), EMPTY_SLOT.Replace([1, NEWLINE]), EMPTY_SLOT.Replace([2, NEWLINE]))
  {
    ApproachSteps();
    hide *;
    StartIsReached();
    ReachedNext(0);
    Connecting();
    ReachedNext(1);
    Feeding(Reached(1));
    ReachedNext(2);
    Sending(SmallWorld(), Reached(2), 2);
    ReachedNext(3);
    Sending(SmallWorld(), Reached(3), 1);
    ReachedNext(4);
    Activating(SmallWorld(), Reached(4));
    ReachedNext(5);
    Metering(SmallWorld(), Reached(5));
    ReachedNext(6);
    Reporting(SmallWorld(), Reached(6), EMPTY_SLOT.Replace([1, NEWLINE]));
  }

  lemma BusyIsPolite(trace: Trace, phase: Phase, waiting: nat)
    requires Unsent(trace, phase, waiting, 0) && waiting > 0
    ensures Polite(trace, WHOLE_WRITE)
  {
  }

  // The approach keeps the rule: both its writes find a queued record.
  lemma ApproachIsPolite(count: nat)
    requires EncodesLines(SmallWorld()) && count < |APPROACH|
    ensures Polite(Reached(count), APPROACH[count])
  {
    ApproachSteps();
    if APPROACH[count].Write? {
      assert count == 2 || count == 3;
      hide *;
      ApproachStages();
      BusyIsPolite(Reached(count), Syncing, if count == 2 then 2 else 1);
    }
  }

  lemma ApproachIsFramed()
    requires EncodesLines(SmallWorld())
    ensures Framed(Reached(|APPROACH|))
  {
    forall k | 0 <= k < |APPROACH| ensures Polite(RunOf(SmallWorld(), Raw, 0, APPROACH[..k]), APPROACH[k]) {
      ApproachIsPolite(k);
    }
    hide RunOf, Framed, Polite, EncodesLines;
    EveryPoliteRunIsFramed(SmallWorld(), Raw, 0, APPROACH);
    assert APPROACH[..|APPROACH|] == APPROACH;
  }

  lemma ReachedAll()
    requires EncodesLines(SmallWorld())
    ensures Reached(|APPROACH|) == RunOf(SmallWorld(), Raw, 0, APPROACH)
  {
    hide RunOf, EncodesLines;
    assert APPROACH[..|APPROACH|] == APPROACH;
  }

  lemma SlotsFacts(trace: Trace, meter: LatestRecord, status: LatestRecord)
    requires Slots(trace, meter, status)
    ensures trace.open && trace.peer.transport.Raw? && trace.peer.outbound == []
    ensures trace.peer.meter == meter && trace.peer.status == status
  {
  }

  // The rule on sockets is needed: this run keeps it until its last pass and is framed up to
  // there; the last pass leaves a stream that is not.
  lemma RuleIsNeeded()
    ensures EncodesLines(SmallWorld())
    ensures var before := RunOf(SmallWorld(), Raw, 0, APPROACH);
            var after := RunOf(SmallWorld(), Raw, 0, APPROACH + [SHORT_WRITE]);
            && Framed(before)
            && after.wire == before.wire + [1, 2, NEWLINE]
            && !Framed(after)
  {
    ApproachSteps();
    hide *;
    SmallWorldEncodesLines();
    ApproachStages();
    ApproachIsFramed();
    ReachedAll();
    var before := Reached(7);
    SlotsFacts(before, EMPTY_SLOT.Replace([1, NEWLINE]), EMPTY_SLOT.Replace([2, NEWLINE]));
    LastStep(before);
    FullSlotsBreakFraming(before);
  }

  lemma LastStep(before: Trace)
    requires EncodesLines(SmallWorld()) && before == RunOf(SmallWorld(), Raw, 0, APPROACH) && before.open
    ensures WriteReady(before.peer)
    ensures RunOf(SmallWorld(), Raw, 0, APPROACH + [SHORT_WRITE]) ==
              Writing(before, Accepts(1), Accepts(2), true, WebAnswer(None, true))
  {
    ShortWriteIs();
    hide *;
    RunExtends(SmallWorld(), Raw, 0, APPROACH, SHORT_WRITE);
    WriteStep(SmallWorld(), before, Accepts(1), Accepts(2), true, WebAnswer(None, true));
  }

  lemma ShortWriteIs()
    ensures SHORT_WRITE == Write(Accepts(1), Accepts(2), true, WebAnswer(None, true))
  {
  }

  lemma WriteStep(env: Environment, trace: Trace, first: WriteAnswer, second: WriteAnswer, admitted: bool, web: WebAnswer)
    requires WriteReady(trace.peer) && trace.open
    ensures Next(env, trace, Write(first, second, admitted, web)) == Writing(trace, first, second, admitted, web)
  {
    hide Writing, WriteReady;
  }

  lemma RunExtends(env: Environment, transport: Transport, revision: nat, steps: seq<Step>, step: Step)
    requires EncodesLines(env)
    ensures WriteReady(RunOf(env, transport, revision, steps).peer)
    ensures RunOf(env, transport, revision, steps + [step]) == Next(env, RunOf(env, transport, revision, steps), step)
  {
    SoundIsWriteReady(env, RunOf(env, transport, revision, steps));
    hide EncodesLines, Next, WriteReady, Sound;
    assert (steps + [step])[..|steps|] == steps;
  }
}
