// What a peer answers: which steps close it, what each step queues, and what every answer of the
// socket or of the web channel does to the records, the slots and the wire.
module PeerAnswers {
  import opened Basics
  import opened Wire
  import opened Peer
  import opened PeerRun
  import opened PeerLedger
  import opened PeerFraming
  import opened PeerDelivery
  import opened PeerRecords

  // ----- one write -----

  // How many bytes of an offered record the socket takes, and which.
  function Moved(record: Option<PendingWrite>, answer: WriteAnswer): (bytes: seq<byte>)
    requires record.Some? ==> record.value.Unfinished()
  {
    if record.None? || !answer.Accepts? then []
    else
      var rest := record.value.bytes[record.value.offset..];
      if answer.count < |rest| then rest[..answer.count] else rest
  }

  predicate Ends(record: Option<PendingWrite>, answer: WriteAnswer) {
    record.Some? && (answer.Broken? || answer == Accepts(0))
  }

  // The record left over: None once it is whole.
  function Left(record: Option<PendingWrite>, answer: WriteAnswer): (rest: Option<PendingWrite>)
    requires record.Some? ==> record.value.Unfinished()
  {
    if record.None? then None
    else
      var offset := record.value.offset + |Moved(record, answer)|;
      if offset == |record.value.bytes| then None else Some(PendingWrite(record.value.bytes, offset))
  }

  lemma OneWrite(write: PendingWrite, answer: WriteAnswer)
    requires write.Unfinished()
    ensures var written := WriteOnce(write, answer);
            && written.bytes == Moved(Some(write), answer)
            && (written.progress.Failed? <==> Ends(Some(write), answer))
            && (written.progress.Complete? <==> Left(Some(write), answer).None?)
            && (!written.progress.Complete? ==> Some(written.write) == Left(Some(write), answer))
  {
  }

  // The slot once its current record, or the waiting one if there is none, was offered.
  function Progressed(slot: LatestRecord, answer: WriteAnswer): (after: LatestRecord)
    requires Offered(slot).Some? ==> Offered(slot).value.Unfinished()
  {
    LatestRecord(Left(Offered(slot), answer), if slot.current.Some? then slot.next else None)
  }

  lemma SlotAnswers(slot: LatestRecord, answer: WriteAnswer)
    requires slot.Valid()
    ensures var result, offered := WriteSlot(slot, answer), Offered(slot);
            && (offered.Some? ==> offered.value.Unfinished())
            && result.bytes == Moved(offered, answer)
            && (result.progress.Failed? <==> Ends(offered, answer))
            && result.slot == Progressed(slot, answer)
  {
    if slot.Promoted().current.Some? {
      OneWrite(slot.Promoted().current.value, answer);
    }
    hide LineShaped, WriteOnce, Moved, Left, Flatten;
  }

  lemma MeterAnswers(peer: PeerState, answer: WriteAnswer)
    requires WriteReady(peer)
    ensures Offered(peer.meter).Some? ==> Offered(peer.meter).value.Unfinished()
    ensures var pass, offered := WriteMeter(peer, answer), Offered(peer.meter);
            && pass.bytes == Moved(offered, answer) && pass.delivered == []
            && (pass.outcome.WriteFailed? <==> Ends(offered, answer))
            && pass.peer == peer.(meter := Progressed(peer.meter, answer))
  {
    SlotAnswers(peer.meter, answer);
    hide LineShaped, WriteSlot, Moved, Progressed;
  }

  lemma StatusAnswers(peer: PeerState, answer: WriteAnswer)
    requires WriteReady(peer)
    ensures Offered(peer.status).Some? ==> Offered(peer.status).value.Unfinished()
    ensures var pass, offered := WriteStatus(peer, answer), Offered(peer.status);
            && pass.bytes == Moved(offered, answer) && pass.delivered == []
            && (pass.outcome.WriteFailed? <==> Ends(offered, answer))
            && pass.peer == peer.(status := Progressed(peer.status, answer))
  {
    SlotAnswers(peer.status, answer);
    hide LineShaped, WriteSlot, Moved, Progressed;
  }

  lemma FinishAnswers(peer: PeerState)
    requires peer.outbound != [] && !FinishOutbound(peer).outcome.WriteFailed?
    ensures var after := FinishOutbound(peer).peer;
            && after == peer.(outbound := peer.outbound[1..], session := after.session,
                              handshakeWritten := peer.handshakeWritten || peer.outbound[0].message.HandshakeResponse?)
  {
  }

  // The front of the queue: what the socket takes of it, and its delivery once it is whole.
  lemma FrontAnswers(peer: PeerState, first: WriteAnswer, second: WriteAnswer)
    requires WriteReady(peer) && Aligned(peer)
    requires !peer.meter.Started() && !peer.status.Started() && peer.outbound != []
    ensures var pass, front := WriteRaw(peer, first, second), peer.outbound[0];
            var rest := Left(Some(front.write), first);
            && pass.bytes == Moved(Some(front.write), first)
            && (pass.outcome.WriteFailed? <==> Ends(Some(front.write), first))
            && (rest.Some? ==>
                  && pass.delivered == []
                  && pass.peer == peer.(outbound := [front.(write := rest.value)] + peer.outbound[1..]))
            && (rest.None? ==>
                  && pass.delivered == [front.message]
                  && pass.peer == FinishOutbound(peer).peer)
  {
    OneWrite(peer.outbound[0].write, first);
    FinishKeepsAlignment(peer);
    assert Ends(Some(peer.outbound[0].write), first) ==> Left(Some(peer.outbound[0].write), first).Some?;
    hide LineShaped, WriteOnce, WriteSlot, WriteMeter, WriteStatus, FinishOutbound, Aligned, Moved, Left;
  }

  // ----- a raw peer on every run -----

  // The record that a peer with something queued or in flight offers.
  function FirstOffered(peer: PeerState): (record: Option<PendingWrite>) {
    if peer.meter.Started() then peer.meter.current
    else if peer.status.Started() then peer.status.current
    else if peer.outbound != [] then Some(peer.outbound[0].write)
    else None
  }

  lemma BusyPassAnswers(peer: PeerState, first: WriteAnswer, second: WriteAnswer)
    requires WriteReady(peer) && Aligned(peer) && !Idle(peer)
    ensures FirstOffered(peer).Some? && FirstOffered(peer).value.Unfinished()
    ensures var pass, offered := WriteRaw(peer, first, second), FirstOffered(peer);
            && pass.bytes == Moved(offered, first)
            && (pass.outcome.WriteFailed? <==> Ends(offered, first))
            && (peer.meter.Started() ==>
                  pass.peer == peer.(meter := Progressed(peer.meter, first)) && pass.delivered == [])
            && (!peer.meter.Started() && peer.status.Started() ==>
                  pass.peer == peer.(status := Progressed(peer.status, first)) && pass.delivered == [])
  {
    if peer.meter.Started() {
      MeterAnswers(peer, first);
    } else if peer.status.Started() {
      StatusAnswers(peer, first);
    } else {
      FrontAnswers(peer, first, second);
      hide WriteRaw;
    }
    hide LineShaped, WriteOnce, WriteSlot, WriteMeter, WriteStatus, FinishOutbound, Aligned, Moved, Left, Progressed;
  }

  // An idle pass offers the meter and, unless that fails, the status, each with its own answer.
  lemma IdlePassAnswers(peer: PeerState, first: WriteAnswer, second: WriteAnswer)
    requires WriteReady(peer) && Idle(peer)
    ensures Offered(peer.meter).Some? ==> Offered(peer.meter).value.Unfinished()
    ensures Offered(peer.status).Some? ==> Offered(peer.status).value.Unfinished()
    ensures var pass, meter, status := WriteRaw(peer, first, second), Offered(peer.meter), Offered(peer.status);
            && pass.delivered == []
            && (Ends(meter, first) ==>
                  pass.outcome.WriteFailed? && pass.bytes == [] && pass.peer.outbound == [])
            && (!Ends(meter, first) ==>
                  && pass.bytes == Moved(meter, first) + Moved(status, second)
                  && (pass.outcome.WriteFailed? <==> Ends(status, second))
                  && pass.peer == peer.(meter := Progressed(peer.meter, first), status := Progressed(peer.status, second)))
  {
    MeterAnswers(peer, first);
    MeterWriteOnlyTouchesMeter(peer, first);
    var metered := WriteMeter(peer, first).peer;
    StatusAnswers(metered, second);
    assert Ends(Offered(peer.meter), first) ==> Moved(Offered(peer.meter), first) == [];
    hide LineShaped, WriteOnce, WriteSlot, WriteMeter, WriteStatus, FinishOutbound, Moved, Left, Progressed;
  }

  // The bytes a pass puts on the wire.
  function PassBytes(peer: PeerState, first: WriteAnswer, second: WriteAnswer): (bytes: seq<byte>)
    requires WriteReady(peer)
  {
    if !Idle(peer) then Moved(FirstOffered(peer), first)
    else if Ends(Offered(peer.meter), first) then []
    else Moved(Offered(peer.meter), first) + Moved(Offered(peer.status), second)
  }

  // An answer that refuses a record which was offered.
  predicate PassEnds(peer: PeerState, first: WriteAnswer, second: WriteAnswer) {
    if !Idle(peer) then Ends(FirstOffered(peer), first)
    else Ends(Offered(peer.meter), first) || Ends(Offered(peer.status), second)
  }

  // The queue's front is offered and the socket takes all of it.
  predicate FrontCompletes(peer: PeerState, first: WriteAnswer) {
    && !peer.meter.Started() && !peer.status.Started() && peer.outbound != []
    && first.Accepts? && peer.outbound[0].write.offset + first.count >= |peer.outbound[0].write.bytes|
  }

  // What a pass that moved `bytes` leaves, up to the fields that only hold bytes.
  ghost predicate Answered(peer: PeerState, first: WriteAnswer, second: WriteAnswer, pass: Pass)
    requires WriteReady(peer)
  {
    && pass.bytes == PassBytes(peer, first, second)
    && (pass.outcome.WriteFailed? <==> PassEnds(peer, first, second))
    && pass.delivered == (if FrontCompletes(peer, first) then [peer.outbound[0].message] else [])
    && |pass.peer.outbound| == |peer.outbound| - |pass.delivered|
    && pass.peer.phase == peer.phase
    && pass.peer.handshakeWritten ==
         (peer.handshakeWritten || (FrontCompletes(peer, first) && peer.outbound[0].message.HandshakeResponse?))
  }

  lemma FrontIsTaken(write: PendingWrite, answer: WriteAnswer)
    requires write.Unfinished()
    ensures Left(Some(write), answer).None? <==> answer.Accepts? && write.offset + answer.count >= |write.bytes|
  {
  }

  lemma IdlePassIsAnswered(peer: PeerState, first: WriteAnswer, second: WriteAnswer)
    requires WriteReady(peer) && Idle(peer)
    ensures Answered(peer, first, second, WriteRaw(peer, first, second))
  {
    hide WriteRaw, LineShaped, WriteReady, Moved, Left, Progressed, Ends, Offered;
    IdlePassAnswers(peer, first, second);
    SlotPassOnlyTouchesSlots(peer, first, second);
  }

  lemma SlotPassIsAnswered(peer: PeerState, first: WriteAnswer, second: WriteAnswer)
    requires WriteReady(peer) && Aligned(peer) && (peer.meter.Started() || peer.status.Started())
    ensures Answered(peer, first, second, WriteRaw(peer, first, second))
  {
    hide WriteRaw, LineShaped, WriteReady, Aligned, Moved, Left, Progressed, Ends, Offered, FirstOffered;
    BusyPassAnswers(peer, first, second);
  }

  lemma FrontPassIsAnswered(peer: PeerState, first: WriteAnswer, second: WriteAnswer)
    requires WriteReady(peer) && Aligned(peer)
    requires !peer.meter.Started() && !peer.status.Started() && peer.outbound != []
    ensures Answered(peer, first, second, WriteRaw(peer, first, second))
  {
    hide WriteRaw, LineShaped, FinishOutbound, Aligned, Moved, Left, Ends, Offered;
    FrontAnswers(peer, first, second);
    FinishKeepsAlignment(peer);
    FinishAnswers(peer);
    FrontIsTaken(peer.outbound[0].write, first);
  }

  lemma NextWrites(env: Environment, trace: Trace, first: WriteAnswer, second: WriteAnswer, admitted: bool, web: WebAnswer)
    requires trace.open && WriteReady(trace.peer)
    ensures Next(env, trace, Write(first, second, admitted, web)) == Writing(trace, first, second, admitted, web)
  {
    hide WriteReady, Writing, Refusing, Establishing, ExecutingNext, Publishing, Draining, ShuttingDown, Queued, FedOne,
         LineShaped;
  }

  lemma PassIsAnswered(peer: PeerState, first: WriteAnswer, second: WriteAnswer)
    requires WriteReady(peer) && Aligned(peer)
    ensures Answered(peer, first, second, WriteRaw(peer, first, second))
  {
    hide Answered, WriteRaw, Aligned, WriteReady;
    if Idle(peer) {
      IdlePassIsAnswered(peer, first, second);
    } else if peer.meter.Started() || peer.status.Started() {
      SlotPassIsAnswered(peer, first, second);
    } else {
      FrontPassIsAnswered(peer, first, second);
    }
  }

  lemma WritingIsAnswered(trace: Trace, first: WriteAnswer, second: WriteAnswer, admitted: bool, web: WebAnswer)
    requires trace.open && trace.peer.transport.Raw? && WriteReady(trace.peer)
    requires Answered(trace.peer, first, second, WriteRaw(trace.peer, first, second))
    ensures var after := Writing(trace, first, second, admitted, web);
            var done := if FrontCompletes(trace.peer, first) then [trace.peer.outbound[0].message] else [];
            && after.wire == trace.wire + PassBytes(trace.peer, first, second)
            && after.delivered == trace.delivered + done
            && |after.peer.outbound| == |trace.peer.outbound| - |done|
            && after.peer.phase == trace.peer.phase
            && (after.open <==>
                  && !PassEnds(trace.peer, first, second)
                  && !(trace.peer.phase.Closing? && after.peer.outbound == []))
  {
    hide WriteRaw, WriteReady, PassBytes, PassEnds, FrontCompletes, WriteWeb;
  }

  // On every run of a raw peer a write pass puts on the wire exactly what the socket takes,
  // delivers the front of the queue exactly when all of it is taken, and closes the peer exactly
  // if the socket refuses a record it was offered or a closing peer has nothing left to deliver.
  lemma EveryWriteIsAnswered(env: Environment, transport: Transport, revision: nat, steps: seq<Step>,
                             first: WriteAnswer, second: WriteAnswer, admitted: bool, web: WebAnswer)
    requires EncodesLines(env)
    requires var trace := RunOf(env, transport, revision, steps); trace.open && trace.peer.transport.Raw?
    ensures WriteReady(RunOf(env, transport, revision, steps).peer)
    ensures var trace := RunOf(env, transport, revision, steps);
            var after := Next(env, trace, Write(first, second, admitted, web));
            var done := if FrontCompletes(trace.peer, first) then [trace.peer.outbound[0].message] else [];
            && after.wire == trace.wire + PassBytes(trace.peer, first, second)
            && after.delivered == trace.delivered + done
            && |after.peer.outbound| == |trace.peer.outbound| - |done|
            && after.peer.phase == trace.peer.phase
            && (after.open <==>
                  && !PassEnds(trace.peer, first, second)
                  && !(trace.peer.phase.Closing? && after.peer.outbound == []))
  {
    var trace := RunOf(env, transport, revision, steps);
    SoundIsWriteReady(env, trace);
    assert Aligned(trace.peer);
    hide *;
    NextWrites(env, trace, first, second, admitted, web);
    PassIsAnswered(trace.peer, first, second);
    WritingIsAnswered(trace, first, second, admitted, web);
  }

  // ----- a socket that would block -----

  lemma BlockedWrite(record: Option<PendingWrite>)
    requires record.Some? ==> record.value.Unfinished()
    ensures Moved(record, WouldBlock) == [] && Left(record, WouldBlock) == record && !Ends(record, WouldBlock)
  {
  }

  lemma BlockedPass(peer: PeerState)
    requires WriteReady(peer) && Aligned(peer)
    ensures PassBytes(peer, WouldBlock, WouldBlock) == [] && !PassEnds(peer, WouldBlock, WouldBlock)
    ensures !FrontCompletes(peer, WouldBlock)
    ensures WriteRaw(peer, WouldBlock, WouldBlock).peer ==
              if Idle(peer) then peer.(meter := peer.meter.Promoted(), status := peer.status.Promoted()) else peer
  {
    hide WriteRaw, LineShaped, FinishOutbound, Aligned, Moved, Left;
    if Idle(peer) {
      IdlePassAnswers(peer, WouldBlock, WouldBlock);
      BlockedWrite(Offered(peer.meter));
      BlockedWrite(Offered(peer.status));
    } else {
      BusyPassAnswers(peer, WouldBlock, WouldBlock);
      BlockedWrite(FirstOffered(peer));
      if !peer.meter.Started() && !peer.status.Started() {
        FrontAnswers(peer, WouldBlock, WouldBlock);
        assert [peer.outbound[0]] + peer.outbound[1..] == peer.outbound;
      }
    }
  }

  // On every run a pass on a socket that would block moves and delivers nothing, keeps the queue
  // and both slots but for the promotion of a waiting record, and leaves the peer open unless it
  // is closing with nothing left to deliver.
  lemma WouldBlockChangesNothing(env: Environment, transport: Transport, revision: nat, steps: seq<Step>,
                                 admitted: bool, web: WebAnswer)
    requires EncodesLines(env)
    requires var trace := RunOf(env, transport, revision, steps); trace.open && trace.peer.transport.Raw?
    ensures WriteReady(RunOf(env, transport, revision, steps).peer)
    ensures var trace := RunOf(env, transport, revision, steps);
            var after := Next(env, trace, Write(WouldBlock, WouldBlock, admitted, web));
            && after.open == !(trace.peer.phase.Closing? && trace.peer.outbound == [])
            && after.wire == trace.wire && after.delivered == trace.delivered && after.records == trace.records
            && after.peer == (if Idle(trace.peer)
                              then trace.peer.(meter := trace.peer.meter.Promoted(), status := trace.peer.status.Promoted())
                              else trace.peer)
  {
    var trace := RunOf(env, transport, revision, steps);
    SoundIsWriteReady(env, trace);
    assert Aligned(trace.peer);
    hide *;
    BlockedPass(trace.peer);
    NextWrites(env, trace, WouldBlock, WouldBlock, admitted, web);
    BlockedWriting(trace, admitted, web);
  }

  lemma BlockedWriting(trace: Trace, admitted: bool, web: WebAnswer)
    requires trace.open && trace.peer.transport.Raw? && WriteReady(trace.peer) && Aligned(trace.peer)
    ensures var after := Writing(trace, WouldBlock, WouldBlock, admitted, web);
            && after == trace.(peer := after.peer, open := after.open)
            && after.peer == WriteRaw(trace.peer, WouldBlock, WouldBlock).peer
            && (after.open <==> !(trace.peer.phase.Closing? && trace.peer.outbound == []))
  {
    hide WriteReady, PassBytes, PassEnds, FrontCompletes, WriteWeb, Aligned, WriteRaw;
    BlockedPass(trace.peer);
    PassIsAnswered(trace.peer, WouldBlock, WouldBlock);
    BlockedRecords(trace.peer);
  }

  lemma BlockedRecords(peer: PeerState)
    requires WriteReady(peer)
    ensures WriteRaw(peer, WouldBlock, WouldBlock).records == []
  {
    hide WriteSlot, WriteOnce, LineShaped, FinishOutbound;
    BlockedSlot(peer.meter);
    BlockedSlot(peer.status);
  }

  lemma BlockedSlot(slot: LatestRecord)
    requires slot.Valid()
    ensures WriteSlot(slot, WouldBlock).done == []
  {
    hide WriteOnce, LineShaped, Flatten;
  }

  // ----- a web peer -----

  // A sent front waits for its acknowledgement, which delivers it; a lost channel fails the peer.
  lemma SentAnswers(peer: PeerState, admitted: bool, web: WebAnswer)
    requires Aligned(peer) && peer.outbound != [] && peer.outbound[0].channelSent
    ensures var pass, front := WriteWeb(peer, admitted, web), peer.outbound[0];
            && pass.bytes == []
            && (pass.outcome.WriteFailed? <==> web.acknowledged == Some(false))
            && pass.delivered == (if web.acknowledged == Some(true) then [front.message] else [])
            && (web.acknowledged != Some(true) ==> pass.peer == peer)
            && pass.peer.outbound == peer.outbound[|pass.delivered|..]
            && pass.peer.phase == peer.phase
            && pass.peer.handshakeWritten ==
                 (peer.handshakeWritten || (web.acknowledged == Some(true) && front.message.HandshakeResponse?))
  {
    FinishKeepsAlignment(peer);
    FinishAnswers(peer);
    hide Aligned, FinishOutbound;
  }

  // An unsent front is counted, unless it is already or need not be, and sent, or the peer fails.
  lemma UnsentAnswers(peer: PeerState, admitted: bool, web: WebAnswer)
    requires peer.outbound != [] && !peer.outbound[0].channelSent
    ensures var pass, front := WriteWeb(peer, admitted, web), peer.outbound[0];
            var counts := front.accounting.SessionAccounting? && !front.accounted;
            && pass.bytes == [] && pass.delivered == []
            && (pass.outcome.WriteFailed? <==> !web.sends || (counts && (peer.session.None? || !admitted)))
            && (!pass.outcome.WriteFailed? ==>
                  && pass.peer.outbound == [front.(accounted := front.accounted || counts, channelSent := true)] + peer.outbound[1..]
                  && (counts ==> pass.peer.session == Some(peer.session.value.QueueOutbound(|front.write.bytes|)))
                  && (!counts ==> pass.peer.session == peer.session))
            && pass.peer.phase == peer.phase && |pass.peer.outbound| == |peer.outbound|
            && pass.peer.handshakeWritten == peer.handshakeWritten
  {
    hide FinishOutbound;
  }

  // The front cannot be counted or sent, or the channel is gone before it is acknowledged.
  predicate WebEnds(peer: PeerState, admitted: bool, web: WebAnswer)
    requires peer.outbound != []
  {
    var front := peer.outbound[0];
    if front.channelSent then web.acknowledged == Some(false)
    else !web.sends || (front.accounting.SessionAccounting? && !front.accounted && (peer.session.None? || !admitted))
  }

  predicate WebCompletes(peer: PeerState, web: WebAnswer)
    requires peer.outbound != []
  {
    peer.outbound[0].channelSent && web.acknowledged == Some(true)
  }

  lemma WebPassIsAnswered(peer: PeerState, admitted: bool, web: WebAnswer)
    requires Aligned(peer) && peer.outbound != []
    ensures var pass := WriteWeb(peer, admitted, web);
            && pass.bytes == []
            && (pass.outcome.WriteFailed? <==> WebEnds(peer, admitted, web))
            && pass.delivered == (if WebCompletes(peer, web) then [peer.outbound[0].message] else [])
            && |pass.peer.outbound| == |peer.outbound| - |pass.delivered|
            && pass.peer.phase == peer.phase
            && pass.peer.handshakeWritten ==
                 (peer.handshakeWritten || (WebCompletes(peer, web) && peer.outbound[0].message.HandshakeResponse?))
            && (!WebEnds(peer, admitted, web) && !WebCompletes(peer, web) ==> pass.peer.outbound[0].channelSent)
  {
    hide Aligned, WriteWeb;
    if peer.outbound[0].channelSent {
      SentAnswers(peer, admitted, web);
    } else {
      UnsentAnswers(peer, admitted, web);
    }
  }

  lemma WebWritingIsAnswered(trace: Trace, first: WriteAnswer, second: WriteAnswer, admitted: bool, web: WebAnswer)
    requires trace.open && trace.peer.transport.Web? && WriteReady(trace.peer) && Aligned(trace.peer)
    requires trace.peer.outbound != []
    ensures var after := Writing(trace, first, second, admitted, web);
            var done := if WebCompletes(trace.peer, web) then [trace.peer.outbound[0].message] else [];
            && (after.open <==>
                  && !WebEnds(trace.peer, admitted, web)
                  && !(trace.peer.phase.Closing? && after.peer.outbound == []))
            && after.delivered == trace.delivered + done && after.wire == trace.wire
            && |after.peer.outbound| == |trace.peer.outbound| - |done|
            && (after.open && done == [] ==> after.peer.outbound[0].channelSent)
  {
    hide Aligned, WriteReady, WriteRaw, WriteWeb, WebEnds, WebCompletes;
    WebPassIsAnswered(trace.peer, admitted, web);
  }

  // On every run of a web peer with something queued: a pass sends the front or delivers it on
  // its acknowledgement, and closes the peer exactly if the front cannot be counted or sent or
  // its channel is gone, or if a closing peer has nothing left to deliver.
  lemma EveryWebWriteIsAnswered(env: Environment, transport: Transport, revision: nat, steps: seq<Step>,
                                first: WriteAnswer, second: WriteAnswer, admitted: bool, web: WebAnswer)
    requires EncodesLines(env)
    requires var trace := RunOf(env, transport, revision, steps);
             trace.open && trace.peer.transport.Web? && trace.peer.outbound != []
    ensures WriteReady(RunOf(env, transport, revision, steps).peer)
    ensures var trace := RunOf(env, transport, revision, steps);
            var after := Next(env, trace, Write(first, second, admitted, web));
            var done := if WebCompletes(trace.peer, web) then [trace.peer.outbound[0].message] else [];
            && (after.open <==>
                  && !WebEnds(trace.peer, admitted, web)
                  && !(trace.peer.phase.Closing? && after.peer.outbound == []))
            && after.delivered == trace.delivered + done && after.wire == trace.wire
            && |after.peer.outbound| == |trace.peer.outbound| - |done|
            && (after.open && done == [] ==> after.peer.outbound[0].channelSent)
  {
    var trace := RunOf(env, transport, revision, steps);
    SoundIsWriteReady(env, trace);
    assert Aligned(trace.peer);
    hide *;
    NextWrites(env, trace, first, second, admitted, web);
    WebWritingIsAnswered(trace, first, second, admitted, web);
  }

  // ----- every other step -----

  // The queue has room, the message encodes and, on a raw peer, the session accounts for it.
  predicate Takes(env: Environment, peer: PeerState, message: Message, admitted: bool) {
    && |peer.outbound| < 32
    && env.encode(message).Some?
    && (peer.transport.Raw? ==> admitted)
  }

  // The messages an initial sync consists of: what follows a cursor that is not ahead of the
  // log, or else a snapshot.
  function SyncOf(sync: Sync, revision: nat): (messages: seq<Message>) {
    if sync.ResumeSync? && sync.cursor <= revision then EventsAfter(sync.cursor, revision) else [Snapshot(revision)]
  }

  // The steps that an open peer outlives.
  predicate Survives(env: Environment, trace: Trace, step: Step)
    requires trace.peer.phase.Active? ==> trace.peer.subscription.Some?
  {
    var peer := trace.peer;
    match step
    case Refuse(message) => !peer.phase.AwaitHandshake? || env.encode(message).Some?
    case Establish(sync, _, admitted) =>
      peer.phase.AwaitHandshake? ==>
        && |SyncOf(sync, trace.revision)| <= (if env.syncLimit > 1 then env.syncLimit else 1)
        && Takes(env, peer, HandshakeResponse(true), admitted)
    case Execute(_, admitted) => peer.phase.Active? ==> Takes(env, peer, CommandResult(trace.executed), admitted)
    case Answer(tag, admitted) => peer.phase.Active? ==> Takes(env, peer, Reply(tag), admitted)
    case Feed(admitted) => Says(trace, step) == [] || Takes(env, peer, Says(trace, step)[0], admitted)
    case Drain(admitted) =>
      if Says(trace, step) != [] then Takes(env, peer, Says(trace, step)[0], admitted)
      else !(peer.phase.Active? && |peer.outbound| < 32 && peer.subscription.value.detached)
    case Shutdown(_, _) => peer.session.Some? && (peer.phase.Closing? || peer.handshakeWritten)
    case Close => false
    case _ => true
  }

  // What a step other than a shutdown adds to the queue of a peer that outlives it.
  function Says(trace: Trace, step: Step): (messages: seq<Message>)
    requires trace.peer.phase.Active? ==> trace.peer.subscription.Some?
  {
    var peer := trace.peer;
    match step
    case Refuse(message) => if peer.phase.AwaitHandshake? then [message] else []
    case Establish(_, _, _) => if peer.phase.AwaitHandshake? then [HandshakeResponse(true)] else []
    case Execute(_, _) => if peer.phase.Active? then [CommandResult(trace.executed)] else []
    case Answer(tag, _) => if peer.phase.Active? then [Reply(tag)] else []
    case Feed(_) =>
      if peer.phase.Syncing? && peer.initialSync != [] && |peer.outbound| < 32 then [peer.initialSync[0]] else []
    case Drain(_) =>
      if peer.phase.Active? && |peer.outbound| < 32 && peer.subscription.value.queue != []
      then [peer.subscription.value.queue[0]] else []
    case _ => []
  }

  lemma QueuedExactly(env: Environment, peer: PeerState, message: Message, accounting: Accounting, admitted: bool)
    requires peer.session.Some? || accounting.RawAccounting?
    ensures var queued := Queued(env, peer, message, accounting, admitted);
            && (queued.Some? <==>
                  && |peer.outbound| < 32 && env.encode(message).Some?
                  && (peer.transport.Raw? && accounting.SessionAccounting? ==> admitted))
            && (queued.Some? ==>
                  && queued.value == peer.(session := queued.value.session, outbound := queued.value.outbound)
                  && Messages(queued.value.outbound) == Messages(peer.outbound) + [message])
  {
    if Queued(env, peer, message, accounting, admitted).Some? {
      QueuedFacts(env, peer, message, accounting, admitted);
    }
    hide Messages;
  }

  lemma SpeakingStepIsAnswered(env: Environment, trace: Trace, step: Step)
    requires trace.open && WriteReady(trace.peer) && Proper(trace.peer)
    requires step.Execute? || step.Answer? || step.Feed? || step.Drain?
    ensures Next(env, trace, step).open <==> Survives(env, trace, step)
    ensures Next(env, trace, step).open ==>
              Messages(Next(env, trace, step).peer.outbound) == Messages(trace.peer.outbound) + Says(trace, step)
  {
    hide LineShaped, WriteReady, Writing, Refusing, Establishing, Publishing, ShuttingDown, Queued, Messages;
    var peer := trace.peer;
    assert peer.phase.Active? || peer.phase.Syncing? ==> peer.session.Some? && peer.subscription.Some?;
    hide Proper;
    if Says(trace, step) == [] {
      assert Messages(peer.outbound) + [] == Messages(peer.outbound);
    } else {
      match step
      case Execute(accepted, admitted) =>
        var published := if accepted then peer.(subscription := Published(env, peer.subscription, Event(trace.revision + 1, Some(trace.executed)))) else peer;
        QueuedExactly(env, published, CommandResult(trace.executed), SessionAccounting, admitted);
      case Answer(tag, admitted) => QueuedExactly(env, peer, Reply(tag), SessionAccounting, admitted);
      case Feed(admitted) =>
        QueuedExactly(env, peer.(initialSync := peer.initialSync[1..]), peer.initialSync[0], SessionAccounting, admitted);
      case Drain(admitted) =>
        var subscription := peer.subscription.value;
        QueuedExactly(env, peer.(subscription := Some(subscription.(queue := subscription.queue[1..]))),
                      subscription.queue[0], SessionAccounting, admitted);
      case _ =>
    }
  }

  lemma OtherStepIsAnswered(env: Environment, trace: Trace, step: Step)
    requires trace.open && WriteReady(trace.peer) && Proper(trace.peer)
    requires step.Refuse? || step.Establish? || step.Publish? || step.BecomeActive? || step.ReplaceMeter?
             || step.ReplaceStatus? || step.Close?
    ensures Next(env, trace, step).open <==> Survives(env, trace, step)
    ensures Next(env, trace, step).open ==>
              Messages(Next(env, trace, step).peer.outbound) == Messages(trace.peer.outbound) + Says(trace, step)
  {
    hide LineShaped, WriteReady, Writing, ExecutingNext, Draining, ShuttingDown, FedOne, Queued, Messages;
    var peer := trace.peer;
    assert peer.phase.AwaitHandshake? ==> peer.outbound == [];
    assert peer.phase.Active? ==> peer.subscription.Some?;
    hide Proper;
    assert Messages(peer.outbound) + [] == Messages(peer.outbound);
    if peer.phase.AwaitHandshake? {
      match step
      case Refuse(message) => QueuedExactly(env, peer, message, RawAccounting, false);
      case Establish(sync, studio, admitted) => EstablishingIsAnswered(env, trace, sync, studio, admitted);
      case _ =>
    }
  }

  // A handshake is answered, and the peer gets the events after its cursor if that is not ahead
  // of the log, a snapshot otherwise; only a raw studio listens to meters and status.
  lemma EstablishingIsAnswered(env: Environment, trace: Trace, sync: Sync, studio: bool, admitted: bool)
    requires trace.open && trace.peer.outbound == []
    ensures var after, messages := Establishing(env, trace, sync, studio, admitted), SyncOf(sync, trace.revision);
            && (after.open <==>
                  && |messages| <= (if env.syncLimit > 1 then env.syncLimit else 1)
                  && Takes(env, trace.peer, HandshakeResponse(true), admitted))
            && (after.open ==>
                  && Messages(after.peer.outbound) == [HandshakeResponse(true)]
                  && after.peer.initialSync == messages && after.sync == messages
                  && after.base == (if sync.ResumeSync? && sync.cursor <= trace.revision then sync.cursor else trace.revision)
                  && after.peer.phase.Syncing?
                  && after.peer.subscription == Some(Subscription([], false))
                  && (after.peer.lossy <==> trace.peer.transport.Raw? && studio))
  {
    var messages := SyncOf(sync, trace.revision);
    var prepared := trace.peer.(
      initialSync := messages, session := Some(NEW_SESSION), subscription := Some(Subscription([], false)),
      lossy := trace.peer.transport.Raw? && studio);
    QueuedExactly(env, prepared, HandshakeResponse(true), SessionAccounting, admitted);
    assert Messages(prepared.outbound) + [HandshakeResponse(true)] == [HandshakeResponse(true)];
    hide Queued, Messages;
  }

  // ----- shutdown -----

  // A shutdown closes a peer that has no session or never got its handshake; any other peer
  // keeps of its slots and sync only a record in flight, and closes once the rest is delivered.
  lemma ShuttingDownIsAnswered(env: Environment, trace: Trace, replace: bool, admitted: bool)
    requires trace.open
    ensures var after, peer := ShuttingDown(env, trace, replace, admitted), trace.peer;
            && (after.open <==> peer.session.Some? && peer.handshakeWritten)
            && (after.open ==>
                  && after.peer.phase.Closing? && after.peer.initialSync == []
                  && after.peer.meter == (if peer.meter.Started() then LatestRecord(peer.meter.current, None) else EMPTY_SLOT)
                  && after.peer.status == (if peer.status.Started() then LatestRecord(peer.status.current, None) else EMPTY_SLOT))
  {
    hide LineShaped, Queued, Messages, Trimmed;
    var trimmed := Trimmed(trace.peer, replace);
    TrimmedContents(trace.peer, replace);
    var session := Queued(env, trimmed, Goodbye, SessionAccounting, admitted);
    if session.Some? {
      QueuedFacts(env, trimmed, Goodbye, SessionAccounting, admitted);
    }
    var raw := Queued(env, trimmed, Goodbye, RawAccounting, admitted);
    if raw.Some? {
      QueuedFacts(env, trimmed, Goodbye, RawAccounting, admitted);
    }
  }

  // A peer that is closing already is left alone.
  lemma ShutdownIsAnswered(env: Environment, trace: Trace, replace: bool, admitted: bool)
    requires trace.open && WriteReady(trace.peer) && Proper(trace.peer)
    ensures Next(env, trace, Shutdown(replace, admitted)).open <==> Survives(env, trace, Shutdown(replace, admitted))
    ensures Next(env, trace, Shutdown(replace, admitted)).open ==>
              if trace.peer.phase.Closing? then Next(env, trace, Shutdown(replace, admitted)) == trace
              else Next(env, trace, Shutdown(replace, admitted)) == ShuttingDown(env, trace, replace, admitted)
  {
    hide LineShaped, WriteReady, ShuttingDown, Writing, Refusing, Establishing, ExecutingNext, Publishing, Draining, Queued, FedOne;
    ShuttingDownIsAnswered(env, trace, replace, admitted);
  }

  // A queued record may be dropped if it is no result and nothing of it was written or sent.
  predicate MayGo(record: Outbound) {
    !record.message.CommandResult? && !record.channelSent && record.write.offset == 0
  }

  // Preserving, a full queue loses the last record that may go, and nothing if none may.
  lemma PreservingDropsTheLast(peer: PeerState, index: nat)
    requires |peer.outbound| <= 32
    ensures var before, after := peer.outbound, PreservedForShutdown(peer).outbound;
            && (|before| < 32 || (forall i :: 0 <= i < |before| ==> !MayGo(before[i])) ==> after == before)
            && (|before| == 32 && index < 32 && MayGo(before[index])
                && (forall i :: index < i < |before| ==> !MayGo(before[i])) ==>
                  after == before[..index] + before[index + 1..])
  {
    assert forall i :: 0 <= i < |peer.outbound| ==> (MayGo(peer.outbound[i]) <==> Removable(peer.outbound[i]));
    hide MayGo, Removable;
  }

  // Replacing, the queue keeps its front if some of that was written or sent, and nothing else.
  lemma ReplacingKeepsOnlyTheFlight(peer: PeerState)
    ensures var before, after := peer.outbound, ReplacedForShutdown(peer).outbound;
            after == (if before != [] && (before[0].channelSent || before[0].write.offset > 0) then [before[0]] else [])
  {
    DiscardedDownToContents(peer, Retained(peer));
    hide DiscardedDownTo;
  }

  // ----- phases, events and slots -----

  // Where a peer that outlives a step goes.
  function PhaseAfter(peer: PeerState, step: Step): (phase: Phase) {
    if step.Refuse? && peer.phase.AwaitHandshake? then Closing
    else if step.Establish? && peer.phase.AwaitHandshake? then Syncing
    else if step.BecomeActive? && peer.phase.Syncing? && peer.initialSync == [] && peer.outbound == [] then Active
    else if step.Shutdown? then Closing
    else peer.phase
  }

  // An event reaches a subscriber that has not overflowed, or detaches it if its queue is full.
  function Hearing(env: Environment, subscription: Option<Subscription>, message: Message): (after: Option<Subscription>) {
    if subscription.None? || subscription.value.detached then subscription
    else if |subscription.value.queue| >= env.subscriberQueue then Some(Subscription(subscription.value.queue, true))
    else Some(Subscription(subscription.value.queue + [message], false))
  }

  lemma QuietStepPhase(env: Environment, trace: Trace, step: Step)
    requires trace.open && WriteReady(trace.peer) && Proper(trace.peer)
    requires !step.Write? && !step.Shutdown? && !step.Refuse? && !step.Establish?
    ensures Next(env, trace, step).open ==> Next(env, trace, step).peer.phase == PhaseAfter(trace.peer, step)
  {
    hide LineShaped, WriteReady, Writing, Refusing, Establishing, ShuttingDown;
  }

  lemma PhaseIsAnswered(env: Environment, trace: Trace, step: Step)
    requires trace.open && WriteReady(trace.peer) && Proper(trace.peer) && !step.Write?
    ensures Next(env, trace, step).open ==> Next(env, trace, step).peer.phase == PhaseAfter(trace.peer, step)
  {
    match step
    case Refuse(message) =>
      hide LineShaped, WriteReady, Queued, Proper;
    case Establish(sync, studio, admitted) =>
      hide LineShaped, WriteReady, Establishing;
      assert trace.peer.phase.AwaitHandshake? ==> trace.peer.outbound == [];
      hide Proper;
      if trace.peer.phase.AwaitHandshake? {
        EstablishingIsAnswered(env, trace, sync, studio, admitted);
      }
    case Shutdown(replace, admitted) =>
      ShutdownIsAnswered(env, trace, replace, admitted);
      ShuttingDownIsAnswered(env, trace, replace, admitted);
      hide Next, ShuttingDown, LineShaped, WriteReady, Proper;
    case _ =>
      hide Next, LineShaped, WriteReady, Proper;
      QuietStepPhase(env, trace, step);
  }

  // A durable event takes the next revision, a command that is accepted likewise, and each is
  // heard by its subscriber.
  lemma EventsAreHeard(env: Environment, trace: Trace, step: Step)
    requires trace.open && WriteReady(trace.peer)
    ensures var after, next := Next(env, trace, step), trace.revision + 1;
            && (step == Publish(true) ==>
                  after.revision == next
                  && after.peer.subscription == Hearing(env, trace.peer.subscription, Event(next, None)))
            && (step == Publish(false) ==>
                  after.revision == trace.revision
                  && after.peer.subscription == Hearing(env, trace.peer.subscription, RuntimeEvent(trace.revision)))
            && (step.Execute? && trace.peer.phase.Active? ==>
                  && after.executed == trace.executed + 1
                  && after.revision == (if step.accepted then next else trace.revision)
                  && (after.open ==>
                        after.peer.subscription ==
                          (if step.accepted
                           then Hearing(env, trace.peer.subscription, Event(next, Some(trace.executed)))
                           else trace.peer.subscription)))
            && (!step.Publish? && !step.Execute? && !step.Write? ==> after.revision == trace.revision)
  {
    hide LineShaped, WriteReady, Writing;
  }

  // A new meter or status is offered by an active listener: it replaces whatever was not begun.
  lemma SlotsAreReplaced(env: Environment, trace: Trace, step: Step)
    requires trace.open && WriteReady(trace.peer) && (step.ReplaceMeter? || step.ReplaceStatus?)
    ensures var after, peer := Next(env, trace, step).peer, trace.peer;
            var listens := peer.lossy && peer.phase.Active? && LineShaped(step.bytes);
            && (!listens ==> after == peer)
            && (listens && step.ReplaceMeter? ==> after == peer.(meter := after.meter) && Newest(peer.meter, after.meter, step.bytes))
            && (listens && step.ReplaceStatus? ==> after == peer.(status := after.status) && Newest(peer.status, after.status, step.bytes))
  {
    hide LineShaped, WriteReady, Writing, Refusing, Establishing, ExecutingNext, Publishing, Draining, ShuttingDown, Queued, FedOne;
  }

  // The record in flight stays, the new one is next, and nothing else waits.
  predicate Newest(before: LatestRecord, after: LatestRecord, bytes: seq<byte>) {
    if before.Started() then after == LatestRecord(before.current, Some(PendingWrite(bytes, 0)))
    else after == LatestRecord(Some(PendingWrite(bytes, 0)), None)
  }

  // On every run a step other than a write closes the peer exactly for its stated reasons, takes
  // it to the stated phase and, unless it is a shutdown, queues exactly the stated messages.
  lemma EveryStepIsAnswered(env: Environment, transport: Transport, revision: nat, steps: seq<Step>, step: Step)
    requires EncodesLines(env) && !step.Write?
    requires RunOf(env, transport, revision, steps).open
    ensures var trace := RunOf(env, transport, revision, steps);
            WriteReady(trace.peer) && (trace.peer.phase.Active? ==> trace.peer.subscription.Some?)
    ensures var trace := RunOf(env, transport, revision, steps);
            var after := Next(env, trace, step);
            && (after.open <==> Survives(env, trace, step))
            && (after.open ==> after.peer.phase == PhaseAfter(trace.peer, step))
            && (after.open && !step.Shutdown? ==>
                  Messages(after.peer.outbound) == Messages(trace.peer.outbound) + Says(trace, step))
  {
    var trace := RunOf(env, transport, revision, steps);
    SoundIsWriteReady(env, trace);
    assert Proper(trace.peer);
    assert trace.peer.phase.Active? ==> trace.peer.subscription.Some?;
    hide *;
    PhaseIsAnswered(env, trace, step);
    match step
    case Execute(_, _) => SpeakingStepIsAnswered(env, trace, step);
    case Answer(_, _) => SpeakingStepIsAnswered(env, trace, step);
    case Feed(_) => SpeakingStepIsAnswered(env, trace, step);
    case Drain(_) => SpeakingStepIsAnswered(env, trace, step);
    case Shutdown(replace, admitted) => ShutdownIsAnswered(env, trace, replace, admitted);
    case _ => OtherStepIsAnswered(env, trace, step);
  }

  // ----- the handshake -----

  predicate Answers(messages: seq<Message>) { exists i :: 0 <= i < |messages| && messages[i].HandshakeResponse? }

  lemma OneMore(messages: seq<Message>, last: Message)
    ensures Answers(messages + [last]) <==> Answers(messages) || last.HandshakeResponse?
  {
    var all := messages + [last];
    assert all[|messages|] == last;
    assert forall i :: 0 <= i < |messages| ==> all[i] == messages[i];
  }

  lemma QueueingKeepsHandshake(env: Environment, peer: PeerState, message: Message, accounting: Accounting, admitted: bool)
    ensures var queued := Queued(env, peer, message, accounting, admitted);
            queued.Some? ==> queued.value.handshakeWritten == peer.handshakeWritten
  {
  }

  lemma SpeakingKeepsHandshake(env: Environment, trace: Trace, step: Step)
    requires trace.open && WriteReady(trace.peer) && !step.Write? && !step.Shutdown?
    ensures Next(env, trace, step).peer.handshakeWritten == trace.peer.handshakeWritten
  {
    hide LineShaped, WriteReady, Writing, ShuttingDown;
  }

  lemma LeavingKeepsHandshake(env: Environment, trace: Trace, replace: bool, admitted: bool)
    requires trace.open && WriteReady(trace.peer)
    ensures Next(env, trace, Shutdown(replace, admitted)).peer.handshakeWritten == trace.peer.handshakeWritten
  {
    hide LineShaped, WriteReady, Writing, Refusing, Establishing, ExecutingNext, Publishing, Draining, Queued, FedOne, Trimmed;
    var trimmed := Trimmed(trace.peer, replace);
    TrimmedContents(trace.peer, replace);
    QueueingKeepsHandshake(env, trimmed, Goodbye, SessionAccounting, admitted);
    QueueingKeepsHandshake(env, trimmed, Goodbye, RawAccounting, admitted);
  }

  lemma WritingNotes(env: Environment, trace: Trace, first: WriteAnswer, second: WriteAnswer, admitted: bool, web: WebAnswer)
    requires trace.open && WriteReady(trace.peer) && Aligned(trace.peer)
    requires trace.peer.handshakeWritten <==> Answers(trace.delivered)
    ensures var after := Writing(trace, first, second, admitted, web);
            after.peer.handshakeWritten <==> Answers(after.delivered)
  {
    hide WriteReady, Aligned, WriteRaw, WriteWeb, PassBytes, PassEnds, FrontCompletes, WebEnds, WebCompletes, Answers;
    if trace.peer.outbound != [] {
      OneMore(trace.delivered, trace.peer.outbound[0].message);
    }
    assert trace.delivered + [] == trace.delivered;
    if trace.peer.transport.Raw? {
      PassIsAnswered(trace.peer, first, second);
    } else if trace.peer.outbound != [] {
      WebPassIsAnswered(trace.peer, admitted, web);
    } else {
      QuietWebPass(trace.peer, admitted, web);
    }
  }

  lemma QuietWebPass(peer: PeerState, admitted: bool, web: WebAnswer)
    requires peer.outbound == []
    ensures WriteWeb(peer, admitted, web) == Pass(peer, [], [], [], Pending)
  {
  }

  // On every run the handshake counts as written exactly once its response was delivered.
  lemma {:induction false} HandshakeIsNoted(env: Environment, transport: Transport, revision: nat, steps: seq<Step>)
    requires EncodesLines(env)
    ensures var trace := RunOf(env, transport, revision, steps);
            trace.peer.handshakeWritten <==> Answers(trace.delivered)
  {
    if steps != [] {
      HandshakeIsNoted(env, transport, revision, steps[..|steps| - 1]);
      var before, step := RunOf(env, transport, revision, steps[..|steps| - 1]), steps[|steps| - 1];
      StepNotes(env, before, step);
      hide Next, Sound, Answers;
    }
  }

  lemma StepNotes(env: Environment, trace: Trace, step: Step)
    requires Sound(env, trace)
    requires trace.peer.handshakeWritten <==> Answers(trace.delivered)
    ensures WriteReady(trace.peer)
    ensures Next(env, trace, step).peer.handshakeWritten <==> Answers(Next(env, trace, step).delivered)
  {
    SoundIsWriteReady(env, trace);
    assert trace.open ==> Aligned(trace.peer);
    hide Sound, Answers, WriteReady, Aligned;
    if !trace.open {
      hide Writing, Refusing, Establishing, ExecutingNext, Publishing, Draining, Queued, FedOne, ShuttingDown;
    } else {
      hide *;
      match step
      case Write(first, second, admitted, web) =>
        WritingNotes(env, trace, first, second, admitted, web);
        NextWrites(env, trace, first, second, admitted, web);
      case Shutdown(replace, admitted) =>
        LeavingKeepsHandshake(env, trace, replace, admitted);
        OnlyWritesDeliver(env, trace, step);
      case _ =>
        SpeakingKeepsHandshake(env, trace, step);
        OnlyWritesDeliver(env, trace, step);
    }
  }
}
