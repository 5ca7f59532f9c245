// The byte stream of a raw peer: whole records, then part of at most one record in flight.
module PeerFraming {
  import opened Basics
  import opened Wire
  import opened Peer
  import opened PeerRun
  import opened PeerLedger

  predicate FrontStarted(peer: PeerState) { peer.outbound != [] && peer.outbound[0].write.Started() }

  // At most one of the queue's front and the two slots is partly written.
  predicate Exclusive(peer: PeerState) {
    && !(peer.meter.Started() && peer.status.Started())
    && (FrontStarted(peer) ==> !peer.meter.Started() && !peer.status.Started())
  }

  // The written part of the record in flight.
  function InFlight(peer: PeerState): (bytes: seq<byte>)
    requires WriteReady(peer)
  {
    (if FrontStarted(peer) then peer.outbound[0].write.Written() else [])
      + peer.meter.Prefix() + peer.status.Prefix()
  }

  ghost predicate Framed(trace: Trace) {
    && WriteReady(trace.peer)
    && Exclusive(trace.peer)
    && trace.wire == Flatten(trace.records) + InFlight(trace.peer)
    && forall i :: 0 <= i < |trace.records| ==> LineShaped(trace.records[i])
  }

  lemma UnstartedHasNoPrefix(slot: LatestRecord)
    requires slot.Valid() && !slot.Started()
    ensures slot.Prefix() == []
  {
  }

  // ----- the write pass -----

  function Offered(slot: LatestRecord): Option<PendingWrite> { slot.Promoted().current }

  // The one pass that breaks the stream: an idle peer's meter write is short, and the socket
  // then takes bytes of the stream status in the same pass.
  predicate Interleaves(peer: PeerState, first: WriteAnswer, second: WriteAnswer) {
    && peer.transport.Raw? && Idle(peer)
    && Offered(peer.meter).Some? && Offered(peer.status).Some?
    && first.Accepts? && 0 < first.count < |Offered(peer.meter).value.bytes|
    && second.Accepts? && second.count > 0
  }

  // A pass extends the stream by `bytes`, completing `records`, from one record in flight to another.
  ghost predicate Extends(peer: PeerState, pass: Pass) {
    && WriteReady(peer) && WriteReady(pass.peer)
    && Exclusive(pass.peer)
    && InFlight(peer) + pass.bytes == Flatten(pass.records) + InFlight(pass.peer)
    && forall i :: 0 <= i < |pass.records| ==> LineShaped(pass.records[i])
  }

  function Observed(trace: Trace, pass: Pass): Trace {
    trace.(peer := pass.peer, wire := trace.wire + pass.bytes, records := trace.records + pass.records)
  }

  lemma StreamAlgebra(
    wire: seq<byte>, flat: seq<byte>, flight: seq<byte>, bytes: seq<byte>, done: seq<byte>, next: seq<byte>)
    requires wire == flat + flight && flight + bytes == done + next
    ensures wire + bytes == flat + done + next
  {
    calc {
      wire + bytes;
      flat + (flight + bytes);
      flat + (done + next);
      flat + done + next;
    }
  }

  lemma ExtendingKeepsFraming(trace: Trace, pass: Pass)
    requires Framed(trace) && Extends(trace.peer, pass)
    ensures Framed(Observed(trace, pass))
  {
    hide LineShaped, WriteReady, Exclusive, InFlight, Flatten;
    FlattenAppend(trace.records, pass.records);
    StreamAlgebra(trace.wire, Flatten(trace.records), InFlight(trace.peer), pass.bytes, Flatten(pass.records),
                  InFlight(pass.peer));
  }

  // Steps that write nothing and keep the record in flight keep the framing.
  lemma SameFlightSameFraming(trace: Trace, peer: PeerState)
    requires Framed(trace)
    requires WriteReady(peer) && Exclusive(peer) && InFlight(peer) == InFlight(trace.peer)
    ensures Framed(trace.(peer := peer))
  {
  }

  lemma MeterPassExtends(peer: PeerState, answer: WriteAnswer)
    requires WriteReady(peer) && Exclusive(peer) && peer.transport.Raw?
    requires !FrontStarted(peer) && !peer.status.Started()
    ensures Extends(peer, WriteMeter(peer, answer))
  {
    hide LineShaped, WriteSlot;
    UnstartedHasNoPrefix(peer.status);
    var pass := WriteMeter(peer, answer);
    assert InFlight(peer) == peer.meter.Prefix();
    assert InFlight(pass.peer) == pass.peer.meter.Prefix();
  }

  lemma StatusPassExtends(peer: PeerState, answer: WriteAnswer)
    requires WriteReady(peer) && Exclusive(peer) && peer.transport.Raw?
    requires !FrontStarted(peer) && !peer.meter.Started()
    ensures Extends(peer, WriteStatus(peer, answer))
  {
    hide LineShaped, WriteSlot;
    UnstartedHasNoPrefix(peer.meter);
    var pass := WriteStatus(peer, answer);
    assert InFlight(peer) == peer.status.Prefix();
    assert InFlight(pass.peer) == pass.peer.status.Prefix();
  }

  lemma FrontPassExtends(env: Environment, peer: PeerState, first: WriteAnswer, second: WriteAnswer)
    requires Shaped(env, peer) && WriteReady(peer) && peer.transport.Raw?
    requires peer.outbound != [] && !peer.meter.Started() && !peer.status.Started()
    ensures Extends(peer, WriteRaw(peer, first, second))
  {
    ShapedAt(env, peer, 0);
    if WriteOnce(peer.outbound[0].write, first).progress.Complete? {
      FrontCompleted(env, peer, first, second);
    } else {
      FrontContinued(peer, first, second);
    }
  }

  // Only the front can be in flight.
  lemma FrontFlight(peer: PeerState)
    requires WriteReady(peer) && !peer.meter.Started() && !peer.status.Started() && peer.outbound != []
    ensures InFlight(peer) == peer.outbound[0].write.Written() && Exclusive(peer)
  {
    UnstartedHasNoPrefix(peer.meter);
    UnstartedHasNoPrefix(peer.status);
    hide LineShaped;
    assert peer.outbound[0].write.offset == 0 ==> peer.outbound[0].write.Written() == [];
  }

  lemma NoFlight(peer: PeerState)
    requires WriteReady(peer) && !peer.meter.Started() && !peer.status.Started() && !FrontStarted(peer)
    ensures InFlight(peer) == [] && Exclusive(peer)
  {
    UnstartedHasNoPrefix(peer.meter);
    UnstartedHasNoPrefix(peer.status);
    hide LineShaped;
  }

  lemma FrontCompleted(env: Environment, peer: PeerState, first: WriteAnswer, second: WriteAnswer)
    requires Shaped(env, peer) && WriteReady(peer) && peer.transport.Raw?
    requires peer.outbound != [] && !peer.meter.Started() && !peer.status.Started()
    requires WriteOnce(peer.outbound[0].write, first).progress.Complete?
    ensures Extends(peer, WriteRaw(peer, first, second))
  {
    var record, pass := peer.outbound[0], WriteRaw(peer, first, second);
    FrontFlight(peer);
    FinishKeepsShape(env, peer);
    ShapedIsWriteReady(env, FinishOutbound(peer).peer);
    NothingBehindIsStarted(env, peer);
    ShapedAt(env, peer, 0);
    CompletedPass(peer, first, second);
    hide Shaped, WriteRaw, WriteOnce, FinishOutbound, WriteReady, LineShaped, InFlight;
    NoFlight(pass.peer);
    FlattenOne(record.write.bytes);
    hide Flatten;
    assert Flatten(pass.records) + [] == record.write.bytes;
  }

  lemma CompletedPass(peer: PeerState, first: WriteAnswer, second: WriteAnswer)
    requires WriteReady(peer) && peer.outbound != [] && !peer.meter.Started() && !peer.status.Started()
    requires WriteOnce(peer.outbound[0].write, first).progress.Complete?
    ensures var record, pass := peer.outbound[0], WriteRaw(peer, first, second);
            && pass.peer == FinishOutbound(peer).peer && pass.records == [record.write.bytes]
            && pass.delivered == [record.message]
            && pass.peer.outbound == peer.outbound[1..] && pass.peer.meter == peer.meter
            && pass.peer.status == peer.status && record.write.bytes == record.write.Written() + pass.bytes
  {
    hide WriteOnce, WriteSlot, LineShaped;
  }

  lemma FrontContinued(peer: PeerState, first: WriteAnswer, second: WriteAnswer)
    requires WriteReady(peer) && peer.outbound != [] && !peer.meter.Started() && !peer.status.Started()
    requires !WriteOnce(peer.outbound[0].write, first).progress.Complete?
    ensures Extends(peer, WriteRaw(peer, first, second))
  {
    var record, pass := peer.outbound[0], WriteRaw(peer, first, second);
    var written := WriteOnce(record.write, first);
    FrontFlight(peer);
    assert pass.peer == peer.(outbound := [record.(write := written.write)] + peer.outbound[1..]);
    assert pass.bytes == written.bytes && pass.records == [];
    assert written.write.Unfinished() && record.write.Written() + written.bytes == written.write.Written();
    hide WriteRaw, WriteOnce, LineShaped, InFlight;
    FrontFlight(pass.peer);
    FlattenNothing<byte>();
    hide Flatten;
    assert Flatten(pass.records) + InFlight(pass.peer) == InFlight(pass.peer);
  }

  lemma FlattenNothing<T>()
    ensures Flatten<T>([]) == []
  {
  }

  // How far a write gets on a slot of which nothing is written yet.
  lemma FreshSlotProgress(slot: LatestRecord, answer: WriteAnswer)
    requires slot.Valid() && !slot.Started()
    ensures var offered, result := Offered(slot), WriteSlot(slot, answer);
            var taken := if answer.Accepts? then answer.count else 0;
            && (result.slot.Started() <==> offered.Some? && 0 < taken < |offered.value.bytes|)
            && (result.slot.Started() ==>
                  && result.bytes == offered.value.bytes[..taken]
                  && result.slot.Prefix() == result.bytes && result.done == [])
            && (offered.None? || taken == 0 ==> result.bytes == [] && result.done == [] && result.slot.Prefix() == [])
            && (offered.Some? && taken >= |offered.value.bytes| ==>
                  result.bytes == offered.value.bytes && result.done == [result.bytes] && result.slot.Prefix() == [])
  {
    var promoted := slot.Promoted();
    if promoted.current.Some? {
      FreshWrite(promoted.current.value, answer);
    }
    hide WriteOnce, LineShaped, Flatten;
  }

  lemma FreshWrite(write: PendingWrite, answer: WriteAnswer)
    requires write.Unfinished() && !write.Started()
    ensures var written := WriteOnce(write, answer);
            var taken := if answer.Accepts? then answer.count else 0;
            if taken == 0 then
              written.bytes == [] && written.write == write && !written.progress.Complete?
            else if taken < |write.bytes| then
              written.progress.Partial? && written.bytes == write.bytes[..taken] && written.write.Started()
              && written.write.Written() == written.bytes
            else
              written.progress.Complete? && written.bytes == write.bytes
  {
  }

  lemma IdleMeterProgress(peer: PeerState, answer: WriteAnswer)
    requires WriteReady(peer) && Idle(peer)
    ensures var result := WriteSlot(peer.meter, answer);
            && (result.slot.Started() <==>
                  && Offered(peer.meter).Some?
                  && answer.Accepts? && 0 < answer.count < |Offered(peer.meter).value.bytes|)
            && (result.slot.Started() ==>
                  && result.bytes == Offered(peer.meter).value.bytes[..answer.count]
                  && result.slot.Prefix() == result.bytes && result.done == [])
  {
    FreshSlotProgress(peer.meter, answer);
    hide WriteSlot, LineShaped;
  }

  // How far a stream status write gets when the slot has something to offer.
  lemma IdleStatusProgress(peer: PeerState, answer: WriteAnswer)
    requires WriteReady(peer) && !peer.status.Started()
    ensures var result := WriteSlot(peer.status, answer);
            && (Offered(peer.status).None? || !(answer.Accepts? && answer.count > 0) ==>
                  result.bytes == [] && result.done == [] && !result.slot.Started() && result.slot.Prefix() == [])
            && (Offered(peer.status).Some? && answer.Accepts? && answer.count > 0 && !result.slot.Started() ==>
                  && result.bytes == Offered(peer.status).value.bytes
                  && result.done == [result.bytes] && result.slot.Prefix() == [])
  {
    FreshSlotProgress(peer.status, answer);
    hide WriteSlot, LineShaped;
  }

  // A line and a piece without a newline do not commute.
  lemma LinesDoNotCommute(piece: seq<byte>, line: seq<byte>)
    requires piece != [] && NEWLINE !in piece && LineShaped(line)
    ensures piece + line != line + piece
  {
    var whole := |piece| + |line|;
    assert (piece + line)[whole - 1] == NEWLINE;
    assert (line + piece)[whole - 1] == piece[|piece| - 1];
  }

  // After such a pass the stream is not the records followed by the piece in flight.
  lemma InterleavedStream(records: seq<seq<byte>>, piece: seq<byte>, line: seq<byte>)
    requires piece != [] && NEWLINE !in piece && LineShaped(line)
    ensures Flatten(records) + (piece + line) != Flatten(records + [line]) + piece
  {
    hide LineShaped;
    var flat := Flatten(records);
    FlattenAppend(records, [line]);
    FlattenOne(line);
    LinesDoNotCommute(piece, line);
    assert (flat + (piece + line))[|flat|..] == piece + line;
    assert (flat + line + piece)[|flat|..] == line + piece;
  }

  lemma InterleavedPass(peer: PeerState, first: WriteAnswer, second: WriteAnswer)
    requires WriteReady(peer) && Interleaves(peer, first, second)
    ensures var pass := WriteRaw(peer, first, second);
            var piece := Offered(peer.meter).value.bytes[..first.count];
            && InFlight(peer) == []
            && pass.peer.meter.Started() && pass.peer.outbound == []
            && (!pass.peer.status.Started() ==>
                  && pass.bytes == piece + Offered(peer.status).value.bytes
                  && pass.records == [Offered(peer.status).value.bytes]
                  && WriteReady(pass.peer) && InFlight(pass.peer) == piece)
  {
    hide LineShaped, WriteSlot, Flatten;
    IdleMeterProgress(peer, first);
    IdleStatusProgress(peer, second);
    UnstartedHasNoPrefix(peer.meter);
    UnstartedHasNoPrefix(peer.status);
    var meter, status := WriteSlot(peer.meter, first), WriteSlot(peer.status, second);
    assert meter.done + status.done == status.done;
  }

  lemma UnframedStream(trace: Trace, pass: Pass, piece: seq<byte>, line: seq<byte>)
    requires Framed(trace) && InFlight(trace.peer) == [] && WriteReady(pass.peer) && InFlight(pass.peer) == piece
    requires pass.bytes == piece + line && pass.records == [line]
    requires piece != [] && NEWLINE !in piece && LineShaped(line)
    ensures !Framed(Observed(trace, pass))
  {
    hide InFlight, Flatten, LineShaped, WriteReady, Exclusive;
    InterleavedStream(trace.records, piece, line);
    assert trace.wire + pass.bytes == Flatten(trace.records) + pass.bytes;
  }

  lemma OfferedPieces(peer: PeerState, first: WriteAnswer, second: WriteAnswer)
    requires WriteReady(peer) && Interleaves(peer, first, second)
    ensures var piece := Offered(peer.meter).value.bytes[..first.count];
            piece != [] && NEWLINE !in piece && LineShaped(Offered(peer.status).value.bytes)
  {
  }

  lemma InterleavingBreaksFraming(trace: Trace, first: WriteAnswer, second: WriteAnswer)
    requires Framed(trace) && Interleaves(trace.peer, first, second)
    ensures !Framed(Observed(trace, WriteRaw(trace.peer, first, second)))
  {
    var pass := WriteRaw(trace.peer, first, second);
    InterleavedPass(trace.peer, first, second);
    OfferedPieces(trace.peer, first, second);
    if pass.peer.status.Started() {
      assert !Exclusive(pass.peer);
      hide WriteRaw, InFlight, Flatten, Exclusive, LineShaped;
    } else {
      hide *;
      UnframedStream(trace, pass, Offered(trace.peer.meter).value.bytes[..first.count],
                     Offered(trace.peer.status).value.bytes);
    }
  }

  lemma ExtensionsCompose(peer: PeerState, left: Pass, right: Pass, whole: Pass)
    requires Extends(peer, left) && Extends(left.peer, right)
    requires whole.peer == right.peer && whole.bytes == left.bytes + right.bytes
    requires whole.records == left.records + right.records
    ensures Extends(peer, whole)
  {
    hide LineShaped, WriteReady, Exclusive, InFlight, Flatten;
    FlattenAppend(left.records, right.records);
    StreamAlgebra(InFlight(peer) + left.bytes, Flatten(left.records), InFlight(left.peer), right.bytes,
                  Flatten(right.records), InFlight(right.peer));
    assert InFlight(peer) + (left.bytes + right.bytes) == InFlight(peer) + left.bytes + right.bytes;
  }

  // A socket that takes nothing of the stream status leaves the stream as it is.
  lemma QuietStatusExtends(peer: PeerState, answer: WriteAnswer)
    requires WriteReady(peer) && Exclusive(peer) && peer.meter.Started()
    requires Offered(peer.status).None? || !(answer.Accepts? && answer.count > 0)
    ensures Extends(peer, WriteStatus(peer, answer))
  {
    hide LineShaped, WriteSlot, Flatten;
    IdleStatusProgress(peer, answer);
    UnstartedHasNoPrefix(peer.status);
    FlattenNothing<byte>();
    assert InFlight(WriteStatus(peer, answer).peer) == InFlight(peer);
  }

  lemma IdlePassExtends(peer: PeerState, first: WriteAnswer, second: WriteAnswer)
    requires WriteReady(peer) && Exclusive(peer) && peer.transport.Raw? && Idle(peer)
    requires !Interleaves(peer, first, second)
    ensures Extends(peer, WriteRaw(peer, first, second))
  {
    MeterPassExtends(peer, first);
    IdleMeterProgress(peer, first);
    var meter := WriteMeter(peer, first);
    hide LineShaped, WriteSlot, InFlight, Flatten;
    if !meter.outcome.WriteFailed? {
      var status := WriteStatus(meter.peer, second);
      if meter.peer.meter.Started() {
        QuietStatusExtends(meter.peer, second);
      } else {
        StatusPassExtends(meter.peer, second);
      }
      ExtensionsCompose(peer, meter, status, WriteRaw(peer, first, second));
    }
  }

  // Exactly when a pass keeps the stream framed.
  lemma PassKeepsFraming(env: Environment, trace: Trace, first: WriteAnswer, second: WriteAnswer)
    requires Sound(env, trace) && Framed(trace) && trace.peer.transport.Raw?
    ensures Framed(Observed(trace, WriteRaw(trace.peer, first, second)))
            <==> !Interleaves(trace.peer, first, second)
  {
    hide Framed, Extends, Shaped;
    var peer := trace.peer;
    assert WriteReady(peer) && Exclusive(peer) by { FramedFacts(trace); }
    if Interleaves(peer, first, second) {
      InterleavingBreaksFraming(trace, first, second);
    } else {
      if peer.meter.Started() {
        MeterPassExtends(peer, first);
      } else if peer.status.Started() {
        StatusPassExtends(peer, first);
      } else if peer.outbound != [] {
        FrontPassExtends(env, peer, first, second);
      } else {
        IdlePassExtends(peer, first, second);
      }
      ExtendingKeepsFraming(trace, WriteRaw(peer, first, second));
    }
  }

  lemma FramedFacts(trace: Trace)
    requires Framed(trace)
    ensures WriteReady(trace.peer) && Exclusive(trace.peer)
  {
  }

  // ----- every other step -----

  // Nothing but a write moves a record that is in flight.
  lemma QueuedKeepsFraming(env: Environment, peer: PeerState, message: Message, accounting: Accounting, admitted: bool)
    requires EncodesLines(env) && Shaped(env, peer)
    requires Queued(env, peer, message, accounting, admitted).Some?
    ensures var queued := Queued(env, peer, message, accounting, admitted).value;
            && WriteReady(peer) && WriteReady(queued)
            && InFlight(queued) == InFlight(peer)
            && (Exclusive(peer) ==> Exclusive(queued))
            && queued.meter == peer.meter && queued.status == peer.status
  {
    ShapedIsWriteReady(env, peer);
    QueuedIs(env, peer, message, accounting, admitted);
    hide Queued, Shaped, LineShaped, EncodesLines;
    QueuedStaysReady(env, peer, message, accounting);
  }

  lemma QueuedStaysReady(env: Environment, peer: PeerState, message: Message, accounting: Accounting)
    requires EncodesLines(env) && env.encode(message).Some?
    ensures NewRecord(env, peer, message, accounting).write.Unfinished()
  {
  }

  lemma TrimmedKeepsFraming(env: Environment, peer: PeerState, replace: bool)
    requires Shaped(env, peer) && Aligned(peer) && !peer.phase.AwaitHandshake? && Exclusive(peer)
    ensures WriteReady(peer) && WriteReady(Trimmed(peer, replace))
    ensures InFlight(Trimmed(peer, replace)) == InFlight(peer)
    ensures Exclusive(Trimmed(peer, replace))
  {
    var trimmed := Trimmed(peer, replace);
    TrimmedKeepsFront(env, peer, replace);
    TrimmedIsSound(env, peer, replace);
    ShapedIsWriteReady(env, peer);
    ShapedIsWriteReady(env, trimmed);
    DiscardKeepsFlight(peer.meter);
    DiscardKeepsFlight(peer.status);
    hide Trimmed, Shaped, Aligned, LineShaped;
  }

  lemma ShapedIsWriteReady(env: Environment, peer: PeerState)
    requires Shaped(env, peer)
    ensures WriteReady(peer)
  {
    if peer.outbound != [] {
      ShapedAt(env, peer, 0);
    }
    hide LineShaped;
  }

  lemma DiscardKeepsFlight(slot: LatestRecord)
    requires slot.Valid()
    ensures slot.DiscardUnstarted().Valid()
    ensures slot.DiscardUnstarted().Prefix() == slot.Prefix()
    ensures slot.DiscardUnstarted().Started() == slot.Started()
  {
    hide LineShaped;
  }

  // Trimming keeps the record in flight and puts no started record at the front.
  lemma TrimmedKeepsFront(env: Environment, peer: PeerState, replace: bool)
    requires Shaped(env, peer)
    ensures var trimmed := Trimmed(peer, replace);
            && trimmed.meter == peer.meter.DiscardUnstarted() && trimmed.status == peer.status.DiscardUnstarted()
            && (FrontStarted(peer) ==> trimmed.outbound != [] && trimmed.outbound[0] == peer.outbound[0])
            && (!FrontStarted(peer) ==> !FrontStarted(trimmed))
  {
    TrimmedContents(peer, replace);
    NothingBehindIsStarted(env, peer);
    hide Trimmed, Shaped;
    if !replace && Dropped(peer).Some? {
      assert Removable(peer.outbound[Dropped(peer).value]);
    }
  }

  lemma NothingBehindIsStarted(env: Environment, peer: PeerState)
    requires Shaped(env, peer)
    ensures forall i :: 0 < i < |peer.outbound| ==> !peer.outbound[i].write.Started()
  {
    forall i | 0 < i < |peer.outbound| ensures !peer.outbound[i].write.Started() {
      ShapedAt(env, peer, i);
    }
  }

  lemma ShuttingDownKeepsFraming(env: Environment, trace: Trace, replace: bool, admitted: bool)
    requires EncodesLines(env)
    requires Sound(env, trace) && trace.open && Framed(trace)
    requires !trace.peer.phase.Closing? || trace.peer.session.None?
    ensures Framed(ShuttingDown(env, trace, replace, admitted))
  {
    if trace.peer.session.Some? && trace.peer.handshakeWritten {
      TrimmedKeepsFraming(env, trace.peer, replace);
      TrimmedIsSound(env, trace.peer, replace);
      var trimmed := Trimmed(trace.peer, replace);
      hide Trimmed, Framed, Shaped, Aligned, LineShaped;
      if Queued(env, trimmed, Goodbye, SessionAccounting, admitted).Some? {
        QueuedKeepsFraming(env, trimmed, Goodbye, SessionAccounting, admitted);
      } else if Queued(env, trimmed, Goodbye, RawAccounting, admitted).Some? {
        QueuedKeepsFraming(env, trimmed, Goodbye, RawAccounting, admitted);
      }
      hide Queued;
      SameFlightSameFraming(trace, ShuttingDown(env, trace, replace, admitted).peer);
    }
  }

  lemma ReplaceKeepsFlight(slot: LatestRecord, bytes: seq<byte>)
    requires slot.Valid() && LineShaped(bytes)
    ensures slot.Replace(bytes).Valid()
    ensures slot.Replace(bytes).Prefix() == slot.Prefix()
    ensures slot.Replace(bytes).Started() == slot.Started()
  {
  }

  lemma WebPassWritesNothing(env: Environment, trace: Trace, admitted: bool, web: WebAnswer)
    requires Sound(env, trace) && trace.open && trace.peer.transport.Web? && Framed(trace)
    ensures var pass := WriteWeb(trace.peer, admitted, web);
            && pass.bytes == [] && pass.records == []
            && Framed(trace.(peer := pass.peer))
  {
    var peer, pass := trace.peer, WriteWeb(trace.peer, admitted, web);
    WebPassIsSound(env, peer, admitted, web);
    assert pass.bytes == [] && pass.records == [] && pass.peer.transport == peer.transport;
    WebHasNoFlight(env, peer);
    WebHasNoFlight(env, pass.peer);
    hide WriteWeb, Framed, Shaped, Aligned, WriteReady, Exclusive, InFlight;
    SameFlightSameFraming(trace, pass.peer);
  }

  lemma WebHasNoFlight(env: Environment, peer: PeerState)
    requires Shaped(env, peer) && peer.transport.Web?
    ensures WriteReady(peer) && Exclusive(peer) && InFlight(peer) == []
  {
    ShapedIsWriteReady(env, peer);
    if peer.outbound != [] {
      ShapedAt(env, peer, 0);
    }
    hide AllFit, LineShaped;
  }

  // A socket that, after a short write, takes nothing more in the same pass.
  predicate Polite(trace: Trace, step: Step) {
    step.Write? ==> !Interleaves(trace.peer, step.first, step.second)
  }

  lemma WritingKeepsFraming(env: Environment, trace: Trace, step: Step)
    requires Sound(env, trace) && trace.open && Framed(trace)
    requires step.Write? && Polite(trace, step)
    ensures Framed(Writing(trace, step.first, step.second, step.admitted, step.web))
  {
    hide Framed, WriteRaw, WriteWeb, Shaped, Aligned, WriteReady;
    FramedFacts(trace);
    if trace.peer.transport.Raw? {
      PassKeepsFraming(env, trace, step.first, step.second);
      FramingIgnoresTheRest(
        Observed(trace, WriteRaw(trace.peer, step.first, step.second)),
        Writing(trace, step.first, step.second, step.admitted, step.web));
    } else {
      WebPassWritesNothing(env, trace, step.admitted, step.web);
      FramingIgnoresTheRest(
        trace.(peer := WriteWeb(trace.peer, step.admitted, step.web).peer),
        Writing(trace, step.first, step.second, step.admitted, step.web));
    }
  }

  lemma FramingIgnoresTheRest(left: Trace, right: Trace)
    requires Framed(left)
    requires left.peer == right.peer && left.wire == right.wire && left.records == right.records
    ensures Framed(right)
  {
  }

  // A step that only queues a record, closes the trace or touches neither.
  lemma QueueingKeepsFraming(env: Environment, trace: Trace, prepared: PeerState, message: Message, admitted: bool)
    requires EncodesLines(env)
    requires Framed(trace) && Shaped(env, prepared)
    requires prepared.outbound == trace.peer.outbound
    requires prepared.meter == trace.peer.meter && prepared.status == trace.peer.status
    ensures Framed(trace.(peer := prepared).With(Queued(env, prepared, message, SessionAccounting, admitted)))
  {
    SameFlightSameFraming(trace, prepared);
    var middle := trace.(peer := prepared);
    if Queued(env, prepared, message, SessionAccounting, admitted).Some? {
      QueuedKeepsFraming(env, prepared, message, SessionAccounting, admitted);
      SameFlightSameFraming(middle, Queued(env, prepared, message, SessionAccounting, admitted).value);
    } else {
      FramingIgnoresTheRest(middle, middle.Closed());
    }
  }

  lemma OpeningKeepsFraming(env: Environment, trace: Trace, step: Step)
    requires EncodesLines(env)
    requires Sound(env, trace) && trace.open && trace.peer.phase.AwaitHandshake? && Framed(trace)
    requires step.Refuse? || step.Establish?
    requires WriteReady(trace.peer)
    ensures Framed(Next(env, trace, step))
  {
    NextIsSound(env, trace, step);
    var after := Next(env, trace, step);
    assert after.wire == trace.wire && after.records == trace.records;
    assert |after.peer.outbound| <= 1 && !FrontStarted(after.peer);
    assert after.peer.meter == trace.peer.meter && after.peer.status == trace.peer.status;
    SoundIsWriteReady(env, after);
    hide Next;
    FramingIgnoresTheRest(trace.(peer := after.peer), after) by {
      SameFlightSameFraming(trace, after.peer);
    }
  }

  lemma NextKeepsFraming(env: Environment, trace: Trace, step: Step)
    requires EncodesLines(env)
    requires Sound(env, trace) && WriteReady(trace.peer) && Framed(trace)
    requires Polite(trace, step)
    ensures Framed(Next(env, trace, step))
  {
    hide Framed, Shaped, Aligned, Queued, FedOne, Writing, ShuttingDown, Establishing, Refusing, WriteReady, Executing;
    var peer := trace.peer;
    if trace.open {
      match step
      case Refuse(_) => if peer.phase.AwaitHandshake? { OpeningKeepsFraming(env, trace, step); }
      case Establish(_, _, _) => if peer.phase.AwaitHandshake? { OpeningKeepsFraming(env, trace, step); }
      case Execute(accepted, admitted) =>
        if peer.phase.Active? {
          ExecutingKeepsFraming(env, trace, trace.executed, accepted, admitted);
          FramingIgnoresTheRest(Executing(env, trace, trace.executed, accepted, admitted),
                                ExecutingNext(env, trace, accepted, admitted));
        }
      case Answer(tag, admitted) =>
        if peer.phase.Active? { QueueingKeepsFraming(env, trace, peer, Reply(tag), admitted); }
      case Publish(durable) => PublishingKeepsFraming(env, trace, durable);
      case Feed(admitted) =>
        if peer.phase.Syncing? && peer.initialSync != [] && |peer.outbound| < OUTBOUND_CAPACITY {
          FeedingKeepsFraming(env, trace, admitted);
        }
      case Drain(admitted) => if peer.phase.Active? { DrainingKeepsFraming(env, trace, admitted); }
      case Write(_, _, _, _) => WritingKeepsFraming(env, trace, step);
      case Shutdown(replace, admitted) =>
        if !(peer.phase.Closing? && peer.session.Some?) { ShuttingDownKeepsFraming(env, trace, replace, admitted); }
      case BecomeActive => SlotStepKeepsFraming(env, trace, step);
      case ReplaceMeter(_) => SlotStepKeepsFraming(env, trace, step);
      case ReplaceStatus(_) => SlotStepKeepsFraming(env, trace, step);
      case Close => FramingIgnoresTheRest(trace, trace.Closed());
    }
  }

  lemma ExecutingKeepsFraming(env: Environment, trace: Trace, command: nat, accepted: bool, admitted: bool)
    requires EncodesLines(env)
    requires Sound(env, trace) && trace.open && trace.peer.phase.Active? && Framed(trace)
    ensures Framed(Executing(env, trace, command, accepted, admitted))
  {
    var revision := if accepted then trace.revision + 1 else trace.revision;
    var published := if accepted then
        trace.peer.(subscription := Published(env, trace.peer.subscription, Event(revision, Some(command))))
      else trace.peer;
    assert trace.peer.initialSync == [] && published.subscription.Some?;
    hide Shaped, Aligned, Framed, Published, Queued, EncodesLines;
    QueueingStepIsSound(env, trace, published, CommandResult(command), admitted);
    QueueingKeepsFraming(env, trace, published, CommandResult(command), admitted);
    FramingIgnoresTheRest(
      trace.(peer := published).With(Queued(env, published, CommandResult(command), SessionAccounting, admitted)),
      Executing(env, trace, command, accepted, admitted));
  }

  lemma PublishingKeepsFraming(env: Environment, trace: Trace, durable: bool)
    requires Framed(trace)
    ensures Framed(Publishing(env, trace, durable))
  {
    var after := Publishing(env, trace, durable);
    SameFlightSameFraming(trace, after.peer);
    FramingIgnoresTheRest(trace.(peer := after.peer), after);
  }

  lemma FeedingKeepsFraming(env: Environment, trace: Trace, admitted: bool)
    requires EncodesLines(env)
    requires Sound(env, trace) && trace.open && trace.peer.phase.Syncing? && Framed(trace)
    requires trace.peer.initialSync != []
    ensures Framed(trace.With(FedOne(env, trace.peer, admitted)))
  {
    var popped := trace.peer.(initialSync := trace.peer.initialSync[1..]);
    QueueingStepIsSound(env, trace, popped, trace.peer.initialSync[0], admitted);
    QueueingKeepsFraming(env, trace, popped, trace.peer.initialSync[0], admitted);
    if FedOne(env, trace.peer, admitted).None? {
      FramingIgnoresTheRest(trace, trace.Closed());
    }
  }

  lemma DrainingKeepsFraming(env: Environment, trace: Trace, admitted: bool)
    requires EncodesLines(env)
    requires Sound(env, trace) && trace.open && trace.peer.phase.Active? && Framed(trace)
    ensures Framed(Draining(env, trace, admitted))
  {
    var subscription := trace.peer.subscription.value;
    if |trace.peer.outbound| < OUTBOUND_CAPACITY {
      if subscription.queue == [] {
        FramingIgnoresTheRest(trace, trace.Closed());
      } else {
        var popped := trace.peer.(subscription := Some(subscription.(queue := subscription.queue[1..])));
        QueueingStepIsSound(env, trace, popped, subscription.queue[0], admitted);
        QueueingKeepsFraming(env, trace, popped, subscription.queue[0], admitted);
      }
    }
  }

  lemma MeterReplacedKeepsFlight(peer: PeerState, bytes: seq<byte>)
    requires WriteReady(peer) && Exclusive(peer) && LineShaped(bytes)
    ensures var after := peer.(meter := peer.meter.Replace(bytes));
            WriteReady(after) && Exclusive(after) && InFlight(after) == InFlight(peer)
  {
    ReplaceKeepsFlight(peer.meter, bytes);
    hide LineShaped;
  }

  lemma StatusReplacedKeepsFlight(peer: PeerState, bytes: seq<byte>)
    requires WriteReady(peer) && Exclusive(peer) && LineShaped(bytes)
    ensures var after := peer.(status := peer.status.Replace(bytes));
            WriteReady(after) && Exclusive(after) && InFlight(after) == InFlight(peer)
  {
    ReplaceKeepsFlight(peer.status, bytes);
    hide LineShaped;
  }

  lemma PhaseKeepsFlight(peer: PeerState, phase: Phase)
    requires WriteReady(peer) && Exclusive(peer)
    ensures var after := peer.(phase := phase);
            WriteReady(after) && Exclusive(after) && InFlight(after) == InFlight(peer)
  {
    hide LineShaped;
  }

  lemma SlotStepKeepsFraming(env: Environment, trace: Trace, step: Step)
    requires WriteReady(trace.peer) && trace.open && Framed(trace)
    requires step.BecomeActive? || step.ReplaceMeter? || step.ReplaceStatus?
    ensures Framed(Next(env, trace, step))
  {
    var peer, after := trace.peer, Next(env, trace, step);
    FramedFacts(trace);
    hide Framed, WriteReady, Exclusive, InFlight, LineShaped;
    match step
    case BecomeActive =>
      PhaseKeepsFlight(peer, Active);
      SameFlightSameFraming(trace, peer.(phase := Active));
    case ReplaceMeter(bytes) =>
      if LineShaped(bytes) {
        MeterReplacedKeepsFlight(peer, bytes);
        SameFlightSameFraming(trace, peer.(meter := peer.meter.Replace(bytes)));
      }
    case ReplaceStatus(bytes) =>
      if LineShaped(bytes) {
        StatusReplacedKeepsFlight(peer, bytes);
        SameFlightSameFraming(trace, peer.(status := peer.status.Replace(bytes)));
      }
  }

  // Every run over a socket that keeps the rule: the wire carries whole records and then a
  // part of at most one record in flight.
  lemma {:induction false} EveryPoliteRunIsFramed(
    env: Environment, transport: Transport, revision: nat, steps: seq<Step>)
    requires EncodesLines(env)
    requires forall k :: 0 <= k < |steps| ==> Polite(RunOf(env, transport, revision, steps[..k]), steps[k])
    ensures Framed(RunOf(env, transport, revision, steps))
  {
    if steps != [] {
      var front := steps[..|steps| - 1];
      forall k | 0 <= k < |front| ensures Polite(RunOf(env, transport, revision, front[..k]), front[k]) {
        assert front[..k] == steps[..k];
      }
      EveryPoliteRunIsFramed(env, transport, revision, front);
      var before := RunOf(env, transport, revision, front);
      SoundIsWriteReady(env, before);
      NextKeepsFraming(env, before, steps[|steps| - 1]);
    }
  }

  // Any framed raw peer whose queue is empty and whose slots hold one meter and one stream
  // status record leaves the framing in a single pass, in which the socket takes a byte of the
  // first record and then the whole of the second.
  lemma FullSlotsBreakFraming(trace: Trace)
    requires Framed(trace) && trace.peer.transport.Raw? && trace.peer.outbound == []
    requires trace.peer.meter == EMPTY_SLOT.Replace([1, NEWLINE])
    requires trace.peer.status == EMPTY_SLOT.Replace([2, NEWLINE])
    ensures var after := Writing(trace, Accepts(1), Accepts(2), true, WebAnswer(None, true));
            && after.wire == trace.wire + [1, 2, NEWLINE]
            && !Framed(after)
  {
    var first, second := Accepts(1), Accepts(2);
    InterleavingBreaksFraming(trace, first, second);
    WitnessPass(trace.peer);
    hide Framed, WriteRaw, LineShaped;
    FramingDependsOn(Writing(trace, first, second, true, WebAnswer(None, true)),
                     Observed(trace, WriteRaw(trace.peer, first, second)));
  }

  lemma WitnessPass(peer: PeerState)
    requires WriteReady(peer) && peer.outbound == []
    requires peer.meter == EMPTY_SLOT.Replace([1, NEWLINE]) && peer.status == EMPTY_SLOT.Replace([2, NEWLINE])
    ensures WriteRaw(peer, Accepts(1), Accepts(2)).bytes == [1, 2, NEWLINE]
  {
    assert WriteSlot(peer.meter, Accepts(1)).bytes == [1] && WriteSlot(peer.meter, Accepts(1)).progress.Partial?;
    assert WriteSlot(peer.status, Accepts(2)).bytes == [2, NEWLINE];
    hide WriteSlot, LineShaped, FinishOutbound, WriteOnce;
    assert [1] + [2, NEWLINE] == [1, 2, NEWLINE];
  }

  lemma FramingDependsOn(left: Trace, right: Trace)
    requires left.peer == right.peer && left.wire == right.wire && left.records == right.records
    ensures Framed(left) == Framed(right)
  {
  }
}
