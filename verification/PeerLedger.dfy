// The session ledger mirrors the outbound queue in every reachable state of every peer.
module PeerLedger {
  import opened Basics
  import opened Wire
  import opened Peer
  import opened PeerRun

  // ----- the shape of the queue -----

  // One queued record at its place in the queue of a peer.
  ghost predicate Fits(env: Environment, transport: Transport, closing: bool, record: Outbound, index: nat) {
    && env.encode(record.message) == Some(record.write.bytes)
    && LineShaped(record.write.bytes)
    && record.write.Unfinished()
    && (index > 0 ==> !record.InFlight())
    && (transport.Raw? ==> record.accounted && !record.channelSent)
    && (transport.Web? ==> !record.write.Started() && (record.accounted ==> index == 0))
    && (transport.Web? && record.channelSent && record.accounting.SessionAccounting? ==> record.accounted)
    && (!closing ==> record.accounting.SessionAccounting?)
  }

  ghost predicate AllFit(env: Environment, transport: Transport, closing: bool, outbound: seq<Outbound>) {
    && |outbound| <= OUTBOUND_CAPACITY
    && forall i :: 0 <= i < |outbound| ==> Fits(env, transport, closing, outbound[i], i)
  }

  // What the phase says about the rest of the peer.
  ghost predicate Proper(peer: PeerState) {
    && peer.meter.Valid() && peer.status.Valid()
    && (peer.transport.Web? ==> peer.meter == EMPTY_SLOT && peer.status == EMPTY_SLOT && !peer.lossy)
    && (peer.phase.AwaitHandshake? ==> peer.session.None? && peer.outbound == [] && !peer.lossy)
    && (!peer.phase.Active? && !peer.phase.Closing? ==> peer.meter == EMPTY_SLOT && peer.status == EMPTY_SLOT)
    && (peer.phase.Syncing? || peer.phase.Active? ==> peer.session.Some? && peer.subscription.Some?)
    && (peer.phase.Active? ==> peer.initialSync == [])
  }

  ghost predicate Shaped(env: Environment, peer: PeerState) {
    && AllFit(env, peer.transport, peer.phase.Closing?, peer.outbound)
    && Proper(peer)
  }

  // The ledger is, in order, the lengths of the accounted session records, and those records
  // are a prefix of the queue; its counters agree with it.
  ghost predicate Mirrors(session: Session, outbound: seq<Outbound>) {
    && session.Balanced()
    && |session.sizes| <= |outbound|
    && (forall i :: 0 <= i < |outbound| ==> (outbound[i].InLedger() <==> i < |session.sizes|))
    && (forall i :: 0 <= i < |session.sizes| ==> session.sizes[i] == |outbound[i].write.bytes|)
  }

  ghost predicate Aligned(peer: PeerState) {
    if peer.session.Some? then Mirrors(peer.session.value, peer.outbound)
    else forall i :: 0 <= i < |peer.outbound| ==> !peer.outbound[i].InLedger()
  }

  // Before shutdown a raw peer has nothing but ledger records queued.
  ghost predicate Sound(env: Environment, trace: Trace) {
    && Shaped(env, trace.peer)
    && (trace.open ==> Aligned(trace.peer))
  }

  // ----- arithmetic of the ledger -----

  lemma {:induction false} SumAppend(left: seq<nat>, right: seq<nat>)
    ensures Sum(left + right) == Sum(left) + Sum(right)
  {
    if left == [] {
      assert left + right == right;
    } else {
      assert (left + right)[1..] == left[1..] + right;
      SumAppend(left[1..], right);
    }
  }

  // Releasing an entry takes exactly its bytes off the total, so the counters never underflow.
  lemma ReleaseIsBalanced(session: Session, index: nat)
    requires session.Balanced() && index < |session.sizes|
    ensures session.Release(index).value.Balanced()
    ensures session.bytesQueued >= session.sizes[index] && session.messagesQueued > 0
  {
    var sizes := session.sizes;
    assert sizes == sizes[..index] + [sizes[index]] + sizes[index + 1..];
    SumAppend(sizes[..index] + [sizes[index]], sizes[index + 1..]);
    SumAppend(sizes[..index], [sizes[index]]);
    SumAppend(sizes[..index], sizes[index + 1..]);
    assert Sum([sizes[index]]) == sizes[index] + Sum([sizes[index]][1..]);
  }

  lemma QueueIsBalanced(session: Session, bytes: nat)
    requires session.Balanced()
    ensures session.QueueOutbound(bytes).Balanced()
  {
    SumAppend(session.sizes, [bytes]);
    assert Sum([bytes]) == bytes + Sum([bytes][1..]);
  }

  // ----- records and ledger as plain lists -----

  lemma FitLast(env: Environment, transport: Transport, closing: bool, outbound: seq<Outbound>, record: Outbound)
    requires AllFit(env, transport, closing, outbound) && |outbound| < OUTBOUND_CAPACITY
    requires Fits(env, transport, closing, record, |outbound|)
    ensures AllFit(env, transport, closing, outbound + [record])
  {
    hide Fits;
  }

  lemma FitEarlier(env: Environment, transport: Transport, closing: bool, record: Outbound, index: nat, earlier: nat)
    requires Fits(env, transport, closing, record, index) && earlier <= index
    ensures Fits(env, transport, closing, record, earlier)
  {
  }

  lemma FitWithout(env: Environment, transport: Transport, closing: bool, outbound: seq<Outbound>, index: nat)
    requires AllFit(env, transport, closing, outbound) && index < |outbound|
    ensures AllFit(env, transport, closing, Without(outbound, index))
  {
    hide Fits;
    var rest := Without(outbound, index);
    forall i | 0 <= i < |rest| ensures Fits(env, transport, closing, rest[i], i) {
      var was := if i < index then i else i + 1;
      assert rest[i] == outbound[was];
      FitEarlier(env, transport, closing, outbound[was], was, i);
    }
  }

  lemma FitFront(env: Environment, transport: Transport, closing: bool, outbound: seq<Outbound>, record: Outbound)
    requires AllFit(env, transport, closing, outbound) && outbound != []
    requires Fits(env, transport, closing, record, 0)
    ensures AllFit(env, transport, closing, [record] + outbound[1..])
  {
    hide Fits;
    var changed := [record] + outbound[1..];
    forall i | 0 <= i < |changed| ensures Fits(env, transport, closing, changed[i], i) {
      assert i > 0 ==> changed[i] == outbound[i];
    }
  }

  lemma FitClosing(env: Environment, transport: Transport, closing: bool, outbound: seq<Outbound>)
    requires AllFit(env, transport, closing, outbound)
    ensures AllFit(env, transport, true, outbound)
  {
  }

  lemma MirrorsLast(session: Session, outbound: seq<Outbound>, record: Outbound)
    requires Mirrors(session, outbound) && record.InLedger()
    requires forall i :: 0 <= i < |outbound| ==> outbound[i].InLedger()
    ensures Mirrors(session.QueueOutbound(|record.write.bytes|), outbound + [record])
  {
    QueueIsBalanced(session, |record.write.bytes|);
    hide Sum;
    if outbound != [] {
      assert outbound[|outbound| - 1].InLedger();
    }
  }

  lemma MirrorsUncounted(session: Session, outbound: seq<Outbound>, record: Outbound)
    requires Mirrors(session, outbound) && !record.InLedger()
    ensures Mirrors(session, outbound + [record])
  {
    hide Sum;
  }

  lemma MirrorsWithout(session: Session, outbound: seq<Outbound>, index: nat)
    requires Mirrors(session, outbound) && index < |outbound|
    ensures outbound[index].InLedger() <==> index < |session.sizes|
    ensures index < |session.sizes| ==> session.sizes[index] == |outbound[index].write.bytes|
    ensures Mirrors(if index < |session.sizes| then session.Release(index).value else session, Without(outbound, index))
  {
    if index < |session.sizes| {
      ReleaseIsBalanced(session, index);
    }
    hide Sum;
  }

  // Counting the front record of a queue in which nothing is counted yet.
  lemma MirrorsFirst(session: Session, outbound: seq<Outbound>, record: Outbound)
    requires Mirrors(session, outbound) && outbound != []
    requires forall i :: 0 <= i < |outbound| ==> !outbound[i].InLedger()
    requires record.InLedger()
    ensures Mirrors(session.QueueOutbound(|record.write.bytes|), [record] + outbound[1..])
  {
    QueueIsBalanced(session, |record.write.bytes|);
    hide Sum;
    assert !outbound[0].InLedger();
  }

  lemma MirrorsFront(session: Session, outbound: seq<Outbound>, record: Outbound)
    requires Mirrors(session, outbound) && outbound != []
    requires record.InLedger() == outbound[0].InLedger() && record.write.bytes == outbound[0].write.bytes
    ensures Mirrors(session, [record] + outbound[1..])
  {
    hide Sum;
    var changed := [record] + outbound[1..];
    assert forall i :: 0 < i < |changed| ==> changed[i] == outbound[i];
  }

  lemma ShapedAt(env: Environment, peer: PeerState, index: nat)
    requires Shaped(env, peer) && index < |peer.outbound|
    ensures Fits(env, peer.transport, peer.phase.Closing?, peer.outbound[index], index)
  {
    hide Fits, Proper;
  }

  // ----- queue operations -----

  // The record that queueing appends.
  function NewRecord(env: Environment, peer: PeerState, message: Message, accounting: Accounting): (record: Outbound)
    requires env.encode(message).Some?
  {
    Outbound(message, PendingWrite(env.encode(message).value, 0), accounting, peer.transport.Raw?, false)
  }

  lemma QueuedIs(env: Environment, peer: PeerState, message: Message, accounting: Accounting, admitted: bool)
    requires Queued(env, peer, message, accounting, admitted).Some?
    ensures env.encode(message).Some? && |peer.outbound| < OUTBOUND_CAPACITY
    ensures var record := NewRecord(env, peer, message, accounting);
            && (record.InLedger() ==> peer.session.Some?)
            && Queued(env, peer, message, accounting, admitted).value ==
                 peer.(outbound := peer.outbound + [record],
                       session := if record.InLedger()
                                  then Some(peer.session.value.QueueOutbound(|record.write.bytes|)) else peer.session)
  {
  }

  lemma NewRecordFits(env: Environment, peer: PeerState, message: Message, accounting: Accounting, closing: bool)
    requires EncodesLines(env) && env.encode(message).Some? && (!closing ==> accounting.SessionAccounting?)
    ensures Fits(env, peer.transport, closing, NewRecord(env, peer, message, accounting), |peer.outbound|)
  {
  }

  lemma QueuedKeepsAlignment(env: Environment, peer: PeerState, message: Message, accounting: Accounting, admitted: bool)
    requires Shaped(env, peer) && Aligned(peer)
    requires Queued(env, peer, message, accounting, admitted).Some?
    requires peer.transport.Raw? && accounting.SessionAccounting? ==>
               forall i :: 0 <= i < |peer.outbound| ==> peer.outbound[i].accounting.SessionAccounting?
    ensures Aligned(Queued(env, peer, message, accounting, admitted).value)
  {
    QueuedIs(env, peer, message, accounting, admitted);
    hide Queued;
    var record := NewRecord(env, peer, message, accounting);
    if peer.session.Some? {
      if record.InLedger() {
        forall i | 0 <= i < |peer.outbound| ensures peer.outbound[i].InLedger() {
          ShapedAt(env, peer, i);
        }
        hide Shaped, Mirrors;
        MirrorsLast(peer.session.value, peer.outbound, record);
      } else {
        hide Shaped, Mirrors;
        MirrorsUncounted(peer.session.value, peer.outbound, record);
      }
    }
  }

  lemma QueuedKeepsShape(env: Environment, peer: PeerState, message: Message, accounting: Accounting, admitted: bool)
    requires EncodesLines(env)
    requires Shaped(env, peer) && !peer.phase.AwaitHandshake?
    requires Queued(env, peer, message, accounting, admitted).Some?
    requires !peer.phase.Closing? ==> accounting.SessionAccounting?
    ensures Shaped(env, Queued(env, peer, message, accounting, admitted).value)
  {
    QueuedIs(env, peer, message, accounting, admitted);
    NewRecordFits(env, peer, message, accounting, peer.phase.Closing?);
    hide Queued, AllFit, Fits, LineShaped;
    FitLast(env, peer.transport, peer.phase.Closing?, peer.outbound, NewRecord(env, peer, message, accounting));
  }

  // Discarding a queued record, wherever it stands, releases its own ledger entry and no other.
  lemma DiscardedKeepsAlignment(peer: PeerState, index: nat)
    requires Aligned(peer) && index < |peer.outbound|
    ensures Aligned(Discarded(peer, index))
    ensures peer.outbound[index].InLedger() ==>
              && peer.session.Some? && index < |peer.session.value.sizes|
              && peer.session.value.sizes[index] == |peer.outbound[index].write.bytes|
              && Discarded(peer, index).session.value.sizes == Without(peer.session.value.sizes, index)
    ensures !peer.outbound[index].InLedger() ==> Discarded(peer, index).session == peer.session
  {
    if peer.session.Some? {
      hide Mirrors;
      MirrorsWithout(peer.session.value, peer.outbound, index);
    }
  }

  lemma DiscardedKeepsShape(env: Environment, peer: PeerState, index: nat)
    requires Shaped(env, peer) && !peer.phase.AwaitHandshake?
    requires index < |peer.outbound|
    ensures Shaped(env, Discarded(peer, index))
  {
    hide AllFit, LineShaped;
    FitWithout(env, peer.transport, peer.phase.Closing?, peer.outbound, index);
  }

  lemma DiscardedLast(peer: PeerState)
    requires peer.outbound != []
    ensures var last := |peer.outbound| - 1;
            var shorter := Discarded(peer, last);
            && shorter == peer.(outbound := peer.outbound[..last], session := shorter.session)
            && (shorter.session.Some? <==> peer.session.Some?)
  {
  }

  lemma {:induction false} DiscardedDownToContents(peer: PeerState, retained: nat)
    ensures var rest := DiscardedDownTo(peer, retained);
            && rest.outbound == (if |peer.outbound| <= retained then peer.outbound else peer.outbound[..retained])
            && rest == peer.(outbound := rest.outbound, session := rest.session)
            && (rest.session.Some? <==> peer.session.Some?)
    decreases |peer.outbound|
  {
    hide Discarded;
    if |peer.outbound| > retained {
      DiscardedLast(peer);
      DiscardedDownToContents(Discarded(peer, |peer.outbound| - 1), retained);
    }
  }

  lemma {:induction false} DiscardedDownToIsSound(env: Environment, peer: PeerState, retained: nat)
    requires Shaped(env, peer) && Aligned(peer) && !peer.phase.AwaitHandshake?
    ensures var rest := DiscardedDownTo(peer, retained);
            && Shaped(env, rest) && Aligned(rest)
            && rest.outbound == (if |peer.outbound| <= retained then peer.outbound else peer.outbound[..retained])
            && rest == peer.(outbound := rest.outbound, session := rest.session)
            && (rest.session.Some? <==> peer.session.Some?)
    decreases |peer.outbound|
  {
    hide Discarded, Shaped, Aligned;
    DiscardedDownToContents(peer, retained);
    if |peer.outbound| > retained {
      var last := |peer.outbound| - 1;
      DiscardedKeepsAlignment(peer, last);
      DiscardedKeepsShape(env, peer, last);
      DiscardedLast(peer);
      DiscardedDownToIsSound(env, Discarded(peer, last), retained);
    }
  }

  // Dropping what the lossy slots have not begun to write.
  function Quieted(peer: PeerState): (quiet: PeerState) {
    peer.(meter := peer.meter.DiscardUnstarted(), status := peer.status.DiscardUnstarted())
  }

  // The record that a preserving shutdown takes out of the queue, if any.
  function Dropped(peer: PeerState): (index: Option<nat>)
    ensures index.Some? ==> index.value < |peer.outbound|
  {
    if |peer.outbound| < OUTBOUND_CAPACITY then None else LastRemovable(peer.outbound, |peer.outbound|)
  }

  // What is left of the queue after trimming.
  lemma TrimmedContents(peer: PeerState, replace: bool)
    ensures Retained(peer) <= |peer.outbound|
    ensures replace ==> Trimmed(peer, replace).outbound == peer.outbound[..Retained(peer)]
    ensures !replace && Dropped(peer).None? ==> Trimmed(peer, replace).outbound == peer.outbound
    ensures !replace && Dropped(peer).Some? ==>
              Trimmed(peer, replace).outbound == Without(peer.outbound, Dropped(peer).value)
    ensures Trimmed(peer, replace) ==
              Quieted(peer).(initialSync := [], outbound := Trimmed(peer, replace).outbound,
                             session := Trimmed(peer, replace).session)
    ensures Trimmed(peer, replace).session.Some? <==> peer.session.Some?
  {
    if replace {
      DiscardedDownToContents(Quieted(peer), Retained(peer));
      hide DiscardedDownTo;
    }
  }

  lemma QuietedIsSound(env: Environment, peer: PeerState)
    requires Shaped(env, peer) && Aligned(peer)
    ensures Shaped(env, Quieted(peer)) && Aligned(Quieted(peer))
  {
    hide AllFit, Mirrors, LineShaped;
  }

  lemma PreservedIsSound(env: Environment, peer: PeerState)
    requires Shaped(env, peer) && Aligned(peer) && !peer.phase.AwaitHandshake?
    ensures var rest := PreservedForShutdown(peer);
            && Shaped(env, rest) && Aligned(rest)
            && rest == peer.(outbound := rest.outbound, session := rest.session)
  {
    hide Shaped, Aligned;
    if |peer.outbound| >= OUTBOUND_CAPACITY && LastRemovable(peer.outbound, |peer.outbound|).Some? {
      var index := LastRemovable(peer.outbound, |peer.outbound|).value;
      DiscardedKeepsAlignment(peer, index);
      DiscardedKeepsShape(env, peer, index);
    }
  }

  // What shutdown leaves in the queue, in both modes.
  lemma TrimmedIsSound(env: Environment, peer: PeerState, replace: bool)
    requires Shaped(env, peer) && Aligned(peer) && !peer.phase.AwaitHandshake?
    ensures Shaped(env, Trimmed(peer, replace)) && Aligned(Trimmed(peer, replace))
    ensures Trimmed(peer, replace).phase == peer.phase && Trimmed(peer, replace).transport == peer.transport
  {
    var quiet := Quieted(peer);
    var kept := if replace then ReplacedForShutdown(quiet) else PreservedForShutdown(quiet);
    QuietedIsSound(env, peer);
    hide Shaped, Aligned;
    if replace {
      DiscardedDownToIsSound(env, quiet, Retained(quiet));
    } else {
      PreservedIsSound(env, quiet);
    }
    assert Trimmed(peer, replace) == kept.(initialSync := []);
    SyncDropped(env, kept);
  }

  lemma SyncDropped(env: Environment, peer: PeerState)
    requires Shaped(env, peer) && Aligned(peer)
    ensures Shaped(env, peer.(initialSync := [])) && Aligned(peer.(initialSync := []))
  {
    hide AllFit, Mirrors, LineShaped;
  }

  // ----- the write pass -----

  // Completing the front record never fails on the ledger.
  lemma FinishKeepsAlignment(peer: PeerState)
    requires Aligned(peer) && peer.outbound != []
    ensures Aligned(FinishOutbound(peer).peer)
    ensures !FinishOutbound(peer).outcome.WriteFailed?
  {
    var record := peer.outbound[0];
    assert peer.outbound[1..] == Without(peer.outbound, 0);
    if peer.session.Some? {
      MirrorsWithout(peer.session.value, peer.outbound, 0);
    }
    assert record.InLedger() ==> peer.session.Some? && peer.session.value.sizes != [];
    FinishedIs(peer);
    hide Mirrors, Sum, FinishOutbound;
  }

  lemma FinishedIs(peer: PeerState)
    requires peer.outbound != []
    requires peer.outbound[0].InLedger() ==> peer.session.Some? && peer.session.value.sizes != []
    ensures var finish := FinishOutbound(peer);
            && !finish.outcome.WriteFailed?
            && finish.peer.outbound == peer.outbound[1..]
            && finish.peer.session ==
                 (if peer.outbound[0].InLedger() then Some(peer.session.value.Release(0).value) else peer.session)
  {
  }

  lemma FinishKeepsShape(env: Environment, peer: PeerState)
    requires Shaped(env, peer) && peer.outbound != []
    ensures Shaped(env, FinishOutbound(peer).peer)
  {
    hide LineShaped, AllFit;
    assert peer.outbound[1..] == Without(peer.outbound, 0);
    FitWithout(env, peer.transport, peer.phase.Closing?, peer.outbound, 0);
  }

  lemma FrontWriteKeepsShape(env: Environment, peer: PeerState, write: PendingWrite)
    requires Shaped(env, peer) && peer.transport.Raw? && peer.outbound != []
    requires write.bytes == peer.outbound[0].write.bytes && write.Unfinished()
    ensures Shaped(env, peer.(outbound := [peer.outbound[0].(write := write)] + peer.outbound[1..]))
  {
    ShapedAt(env, peer, 0);
    var record := peer.outbound[0].(write := write);
    assert Fits(env, peer.transport, peer.phase.Closing?, record, 0);
    hide LineShaped, AllFit, Fits;
    FitFront(env, peer.transport, peer.phase.Closing?, peer.outbound, record);
  }

  lemma FrontWriteKeepsAlignment(peer: PeerState, write: PendingWrite)
    requires Aligned(peer) && peer.outbound != []
    requires write.bytes == peer.outbound[0].write.bytes
    ensures Aligned(peer.(outbound := [peer.outbound[0].(write := write)] + peer.outbound[1..]))
  {
    if peer.session.Some? {
      hide Mirrors;
      MirrorsFront(peer.session.value, peer.outbound, peer.outbound[0].(write := write));
    }
  }

  lemma RawPassIsSound(env: Environment, peer: PeerState, first: WriteAnswer, second: WriteAnswer)
    requires Shaped(env, peer) && Aligned(peer) && peer.transport.Raw? && WriteReady(peer)
    ensures Aligned(WriteRaw(peer, first, second).peer)
    ensures Shaped(env, WriteRaw(peer, first, second).peer)
  {
    if peer.meter.Started() || peer.status.Started() || peer.outbound == [] {
      SlotPassIsSound(env, peer, first, second);
    } else {
      hide LineShaped, WriteOnce, FinishOutbound, Aligned, Shaped, WriteSlot;
      var written := WriteOnce(peer.outbound[0].write, first);
      if written.progress.Complete? {
        FinishKeepsAlignment(peer);
        FinishKeepsShape(env, peer);
      } else {
        FrontWriteKeepsShape(env, peer, written.write);
        FrontWriteKeepsAlignment(peer, written.write);
      }
    }
  }

  lemma SlotPassIsSound(env: Environment, peer: PeerState, first: WriteAnswer, second: WriteAnswer)
    requires Shaped(env, peer) && Aligned(peer) && peer.transport.Raw? && WriteReady(peer)
    requires peer.meter.Started() || peer.status.Started() || peer.outbound == []
    ensures Shaped(env, WriteRaw(peer, first, second).peer)
    ensures Aligned(WriteRaw(peer, first, second).peer)
  {
    SlotPassOnlyTouchesSlots(peer, first, second);
    hide LineShaped, WriteRaw, AllFit, Mirrors;
  }

  lemma SlotPassOnlyTouchesSlots(peer: PeerState, first: WriteAnswer, second: WriteAnswer)
    requires WriteReady(peer)
    requires peer.meter.Started() || peer.status.Started() || peer.outbound == []
    ensures var after := WriteRaw(peer, first, second).peer;
            && after == peer.(meter := after.meter, status := after.status)
            && after.meter.Valid() && after.status.Valid()
            && (peer.meter == EMPTY_SLOT ==> after.meter == EMPTY_SLOT)
            && (peer.status == EMPTY_SLOT ==> after.status == EMPTY_SLOT)
  {
    MeterWriteOnlyTouchesMeter(peer, first);
    StatusWriteOnlyTouchesStatus(peer, first);
    if Idle(peer) {
      StatusWriteOnlyTouchesStatus(WriteMeter(peer, first).peer, second);
    }
    hide LineShaped, WriteOnce, FinishOutbound, WriteSlot, WriteMeter, WriteStatus;
  }

  lemma MeterWriteOnlyTouchesMeter(peer: PeerState, answer: WriteAnswer)
    requires WriteReady(peer)
    ensures var after := WriteMeter(peer, answer).peer;
            && after == peer.(meter := after.meter) && after.meter.Valid() && WriteReady(after)
            && (peer.meter == EMPTY_SLOT ==> after.meter == EMPTY_SLOT)
  {
    hide LineShaped;
  }

  lemma StatusWriteOnlyTouchesStatus(peer: PeerState, answer: WriteAnswer)
    requires WriteReady(peer)
    ensures var after := WriteStatus(peer, answer).peer;
            && after == peer.(status := after.status) && after.status.Valid() && WriteReady(after)
            && (peer.status == EMPTY_SLOT ==> after.status == EMPTY_SLOT)
  {
    hide LineShaped;
  }

  lemma WebPassIsSound(env: Environment, peer: PeerState, admitted: bool, web: WebAnswer)
    requires Shaped(env, peer) && Aligned(peer) && peer.transport.Web?
    ensures var pass := WriteWeb(peer, admitted, web);
            && Shaped(env, pass.peer)
            && Aligned(pass.peer)
  {
    if peer.outbound != [] && peer.outbound[0].channelSent {
      FinishKeepsAlignment(peer);
      FinishKeepsShape(env, peer);
      hide Shaped, Aligned, FinishOutbound;
    } else if peer.outbound != [] {
      UnsentPass(peer, admitted, web);
      hide WriteWeb;
      WebFrontKeepsShape(env, peer, admitted, web);
      WebFrontKeepsAlignment(env, peer, admitted, web);
    }
  }

  // A web pass before the send: the front may be counted, and then sent.
  lemma UnsentPass(peer: PeerState, admitted: bool, web: WebAnswer)
    requires peer.outbound != [] && !peer.outbound[0].channelSent
    ensures var record, after := peer.outbound[0], WriteWeb(peer, admitted, web).peer;
            var counts := record.accounting.SessionAccounting? && !record.accounted && peer.session.Some? && admitted;
            || after == peer
            || (after == peer.(
                  outbound := [record.(accounted := record.accounted || counts, channelSent := after.outbound[0].channelSent)]
                              + peer.outbound[1..],
                  session := if counts then Some(peer.session.value.QueueOutbound(|record.write.bytes|)) else peer.session)
                && (record.accounting.SessionAccounting? ==> record.accounted || counts))
  {
    hide FinishOutbound;
    var record := peer.outbound[0];
    assert [record] + peer.outbound[1..] == peer.outbound;
  }

  lemma WebFrontKeepsShape(env: Environment, peer: PeerState, admitted: bool, web: WebAnswer)
    requires Shaped(env, peer) && peer.transport.Web? && peer.outbound != [] && !peer.outbound[0].channelSent
    ensures Shaped(env, WriteWeb(peer, admitted, web).peer)
  {
    UnsentPass(peer, admitted, web);
    ShapedAt(env, peer, 0);
    var after := WriteWeb(peer, admitted, web).peer;
    hide WriteWeb, AllFit, LineShaped;
    if after != peer {
      assert Fits(env, peer.transport, peer.phase.Closing?, after.outbound[0], 0);
      hide Fits;
      FitFront(env, peer.transport, peer.phase.Closing?, peer.outbound, after.outbound[0]);
    }
  }

  lemma WebFrontKeepsAlignment(env: Environment, peer: PeerState, admitted: bool, web: WebAnswer)
    requires Shaped(env, peer) && Aligned(peer)
    requires peer.transport.Web? && peer.outbound != [] && !peer.outbound[0].channelSent
    ensures Aligned(WriteWeb(peer, admitted, web).peer)
  {
    UnsentPass(peer, admitted, web);
    var record, after := peer.outbound[0], WriteWeb(peer, admitted, web).peer;
    OnlyFrontIsCounted(env, peer);
    hide WriteWeb, Shaped;
    if after != peer && peer.session.Some? {
      hide Mirrors;
      if after.outbound[0].accounted && !record.accounted {
        MirrorsFirst(peer.session.value, peer.outbound, after.outbound[0]);
      } else {
        MirrorsFront(peer.session.value, peer.outbound, after.outbound[0]);
      }
    }
  }

  lemma OnlyFrontIsCounted(env: Environment, peer: PeerState)
    requires Shaped(env, peer) && peer.transport.Web? && peer.outbound != []
    ensures forall i :: 0 < i < |peer.outbound| ==> !peer.outbound[i].InLedger()
  {
    forall i | 0 < i < |peer.outbound| ensures !peer.outbound[i].InLedger() {
      ShapedAt(env, peer, i);
    }
  }

  // ----- every step, every run -----

  // Queueing a session record on a peer that is not closing.
  lemma QueuedIsSound(env: Environment, peer: PeerState, message: Message, admitted: bool)
    requires EncodesLines(env)
    requires Shaped(env, peer) && Aligned(peer)
    requires peer.phase.Syncing? || peer.phase.Active?
    requires Queued(env, peer, message, SessionAccounting, admitted).Some?
    ensures Shaped(env, Queued(env, peer, message, SessionAccounting, admitted).value)
    ensures Aligned(Queued(env, peer, message, SessionAccounting, admitted).value)
  {
    OnlySessionRecords(env, peer);
    hide Shaped, Aligned, Queued, EncodesLines;
    QueuedKeepsAlignment(env, peer, message, SessionAccounting, admitted);
    QueuedKeepsShape(env, peer, message, SessionAccounting, admitted);
  }

  lemma OnlySessionRecords(env: Environment, peer: PeerState)
    requires Shaped(env, peer) && !peer.phase.Closing?
    ensures forall i :: 0 <= i < |peer.outbound| ==> peer.outbound[i].accounting.SessionAccounting?
  {
    forall i | 0 <= i < |peer.outbound| ensures peer.outbound[i].accounting.SessionAccounting? {
      ShapedAt(env, peer, i);
    }
  }

  lemma RefusingIsSound(env: Environment, trace: Trace, message: Message)
    requires EncodesLines(env)
    requires Sound(env, trace) && trace.open && trace.peer.phase.AwaitHandshake?
    ensures Sound(env, Refusing(env, trace, message))
  {
    if Queued(env, trace.peer, message, RawAccounting, false).Some? {
      QueuedIs(env, trace.peer, message, RawAccounting, false);
      NewRecordFits(env, trace.peer, message, RawAccounting, true);
      hide Queued, EncodesLines, LineShaped, Fits;
      FitLast(env, trace.peer.transport, true, [], NewRecord(env, trace.peer, message, RawAccounting));
      assert [] + [NewRecord(env, trace.peer, message, RawAccounting)] == [NewRecord(env, trace.peer, message, RawAccounting)];
    }
  }

  lemma EstablishingIsSound(env: Environment, trace: Trace, sync: Sync, studio: bool, admitted: bool)
    requires EncodesLines(env)
    requires Sound(env, trace) && trace.open && trace.peer.phase.AwaitHandshake?
    ensures Sound(env, Establishing(env, trace, sync, studio, admitted))
  {
    var after := Establishing(env, trace, sync, studio, admitted);
    if after.open {
      var syncing := trace.peer.(
        phase := Syncing, initialSync := after.sync, session := Some(NEW_SESSION),
        subscription := Some(Subscription([], false)), lossy := trace.peer.transport.Raw? && studio);
      assert after.peer == Queued(env, syncing, HandshakeResponse(true), SessionAccounting, admitted).value;
      assert Shaped(env, syncing) && Aligned(syncing);
      hide Establishing, Queued, EncodesLines, Shaped, Aligned;
      QueuedIsSound(env, syncing, HandshakeResponse(true), admitted);
    }
  }

  // Steps that only replace the subscription or the pending sync and then queue one record.
  lemma QueueingStepIsSound(env: Environment, trace: Trace, prepared: PeerState, message: Message, admitted: bool)
    requires EncodesLines(env)
    requires Sound(env, trace) && trace.open
    requires trace.peer.phase.Syncing? || trace.peer.phase.Active?
    requires prepared == trace.peer.(subscription := prepared.subscription, initialSync := prepared.initialSync)
    requires prepared.subscription.Some? && (prepared.phase.Active? ==> prepared.initialSync == [])
    ensures Shaped(env, prepared) && Aligned(prepared)
    ensures Sound(env, trace.(peer := prepared).With(Queued(env, prepared, message, SessionAccounting, admitted)))
  {
    hide EncodesLines, LineShaped, AllFit, Mirrors, Queued;
    assert Shaped(env, prepared) && Aligned(prepared);
    hide Shaped, Aligned;
    if Queued(env, prepared, message, SessionAccounting, admitted).Some? {
      QueuedIsSound(env, prepared, message, admitted);
    }
  }

  lemma WritingIsSound(env: Environment, trace: Trace, first: WriteAnswer, second: WriteAnswer, admitted: bool,
                       web: WebAnswer)
    requires Sound(env, trace) && trace.open && WriteReady(trace.peer)
    ensures Sound(env, Writing(trace, first, second, admitted, web))
  {
    hide Shaped, Aligned, WriteRaw, WriteWeb, WriteReady;
    if trace.peer.transport.Raw? {
      RawPassIsSound(env, trace.peer, first, second);
    } else {
      WebPassIsSound(env, trace.peer, admitted, web);
    }
  }

  lemma ShuttingDownIsSound(env: Environment, trace: Trace, replace: bool, admitted: bool)
    requires EncodesLines(env)
    requires Sound(env, trace) && trace.open
    requires trace.peer.phase.Closing? ==> trace.peer.session.None?
    ensures Sound(env, ShuttingDown(env, trace, replace, admitted))
  {
    if trace.peer.session.Some? && trace.peer.handshakeWritten {
      assert !trace.peer.phase.AwaitHandshake?;
      var trimmed := Trimmed(trace.peer, replace);
      TrimmedIsSound(env, trace.peer, replace);
      OnlySessionRecords(env, trimmed);
      ClosingIsSound(env, trimmed);
      hide Trimmed, Shaped, Aligned, EncodesLines;
      LeavingIsSound(env, trimmed, SessionAccounting, admitted);
      LeavingIsSound(env, trimmed, RawAccounting, admitted);
      hide Queued;
    }
  }

  lemma ClosingIsSound(env: Environment, peer: PeerState)
    requires Shaped(env, peer) && Aligned(peer) && !peer.phase.AwaitHandshake?
    ensures Shaped(env, peer.(phase := Closing)) && Aligned(peer.(phase := Closing))
  {
    FitClosing(env, peer.transport, peer.phase.Closing?, peer.outbound);
    hide AllFit, Mirrors, LineShaped;
  }

  lemma LeavingIsSound(env: Environment, trimmed: PeerState, accounting: Accounting, admitted: bool)
    requires EncodesLines(env)
    requires Shaped(env, trimmed.(phase := Closing)) && Aligned(trimmed.(phase := Closing))
    requires forall i :: 0 <= i < |trimmed.outbound| ==> trimmed.outbound[i].accounting.SessionAccounting?
    ensures var queued := Queued(env, trimmed, Goodbye, accounting, admitted);
            queued.Some? ==> Shaped(env, queued.value.(phase := Closing)) && Aligned(queued.value.(phase := Closing))
  {
    var closing := trimmed.(phase := Closing);
    if Queued(env, trimmed, Goodbye, accounting, admitted).Some? {
      assert Queued(env, closing, Goodbye, accounting, admitted).Some?;
      assert Queued(env, trimmed, Goodbye, accounting, admitted).value.(phase := Closing) ==
             Queued(env, closing, Goodbye, accounting, admitted).value;
      hide Queued, Shaped, Aligned, EncodesLines;
      QueuedKeepsShape(env, closing, Goodbye, accounting, admitted);
      QueuedKeepsAlignment(env, closing, Goodbye, accounting, admitted);
    }
  }

  lemma SoundIsWriteReady(env: Environment, trace: Trace)
    requires Sound(env, trace)
    ensures WriteReady(trace.peer)
  {
    hide LineShaped;
    if trace.peer.outbound != [] {
      ShapedAt(env, trace.peer, 0);
    }
  }

  lemma PublishingIsSound(env: Environment, trace: Trace, durable: bool)
    requires Sound(env, trace)
    ensures Sound(env, Publishing(env, trace, durable))
  {
    hide AllFit, Mirrors, LineShaped;
  }

  lemma ExecutingIsSound(env: Environment, trace: Trace, command: nat, accepted: bool, admitted: bool)
    requires EncodesLines(env) && Sound(env, trace) && trace.open && trace.peer.phase.Active?
    ensures Sound(env, Executing(env, trace, command, accepted, admitted))
  {
    var peer := trace.peer;
    var revision := if accepted then trace.revision + 1 else trace.revision;
    var published := if accepted then
        peer.(subscription := Published(env, peer.subscription, Event(revision, Some(command)))) else peer;
    assert peer.initialSync == [] && published.subscription.Some?;
    hide Shaped, Aligned, Queued, EncodesLines, Published;
    QueueingStepIsSound(env, trace, published, CommandResult(command), admitted);
  }

  lemma SoundIgnoresTheCount(env: Environment, trace: Trace, executed: nat)
    requires Sound(env, trace)
    ensures Sound(env, trace.(executed := executed))
  {
    hide Shaped, Aligned;
  }

  lemma FeedingIsSound(env: Environment, trace: Trace, admitted: bool)
    requires EncodesLines(env) && Sound(env, trace) && trace.open
    requires trace.peer.phase.Syncing? && trace.peer.initialSync != []
    ensures Sound(env, trace.With(FedOne(env, trace.peer, admitted)))
  {
    var peer := trace.peer;
    var popped := peer.(initialSync := peer.initialSync[1..]);
    assert peer.subscription.Some?;
    hide Shaped, Aligned, Queued, EncodesLines;
    QueueingStepIsSound(env, trace, popped, peer.initialSync[0], admitted);
  }

  lemma DrainingIsSound(env: Environment, trace: Trace, admitted: bool)
    requires EncodesLines(env) && Sound(env, trace) && trace.open && trace.peer.phase.Active?
    ensures Sound(env, Draining(env, trace, admitted))
  {
    var peer := trace.peer;
    assert peer.initialSync == [] && peer.subscription.Some?;
    hide Shaped, Aligned, Queued, EncodesLines;
    if |peer.outbound| < OUTBOUND_CAPACITY && peer.subscription.value.queue != [] {
      var queue := peer.subscription.value.queue;
      var popped := peer.(subscription := Some(peer.subscription.value.(queue := queue[1..])));
      QueueingStepIsSound(env, trace, popped, queue[0], admitted);
    }
  }

  lemma QuietStepIsSound(env: Environment, trace: Trace, step: Step)
    requires Sound(env, trace) && trace.open && WriteReady(trace.peer)
    requires step.BecomeActive? || step.ReplaceMeter? || step.ReplaceStatus? || step.Close?
    ensures Sound(env, Next(env, trace, step))
  {
    hide AllFit, Mirrors;
  }

  lemma LiveStepIsSound(env: Environment, trace: Trace, step: Step)
    requires EncodesLines(env) && Sound(env, trace) && trace.open && WriteReady(trace.peer)
    requires step.Execute? || step.Answer? || step.Publish? || step.Feed? || step.Drain?
    ensures Sound(env, Next(env, trace, step))
  {
    var peer := trace.peer;
    assert peer.phase.Active? ==> peer.initialSync == [] && peer.subscription.Some?;
    hide Sound, EncodesLines, FedOne, Queued, Executing, Publishing, Draining, WriteReady;
    match step
    case Execute(accepted, admitted) =>
      if peer.phase.Active? {
        ExecutingIsSound(env, trace, trace.executed, accepted, admitted);
        SoundIgnoresTheCount(env, Executing(env, trace, trace.executed, accepted, admitted), trace.executed + 1);
      }
    case Answer(tag, admitted) =>
      if peer.phase.Active? {
        QueueingStepIsSound(env, trace, peer, Reply(tag), admitted);
        assert trace.(peer := peer) == trace;
      }
    case Publish(durable) => PublishingIsSound(env, trace, durable);
    case Feed(admitted) =>
      if peer.phase.Syncing? && peer.initialSync != [] { FeedingIsSound(env, trace, admitted); }
    case Drain(admitted) => if peer.phase.Active? { DrainingIsSound(env, trace, admitted); }
  }

  lemma EdgeStepIsSound(env: Environment, trace: Trace, step: Step)
    requires EncodesLines(env) && Sound(env, trace) && trace.open && WriteReady(trace.peer)
    requires step.Refuse? || step.Establish? || step.Write? || step.Shutdown?
    ensures Sound(env, Next(env, trace, step))
  {
    var peer := trace.peer;
    hide Sound, EncodesLines, Refusing, Establishing, Writing, ShuttingDown, WriteReady;
    match step
    case Refuse(message) =>
      if peer.phase.AwaitHandshake? { RefusingIsSound(env, trace, message); }
    case Establish(sync, studio, admitted) =>
      if peer.phase.AwaitHandshake? { EstablishingIsSound(env, trace, sync, studio, admitted); }
    case Write(first, second, admitted, web) => WritingIsSound(env, trace, first, second, admitted, web);
    case Shutdown(replace, admitted) =>
      if !(peer.phase.Closing? && peer.session.Some?) { ShuttingDownIsSound(env, trace, replace, admitted); }
  }

  lemma NextIsSound(env: Environment, trace: Trace, step: Step)
    requires EncodesLines(env)
    requires Sound(env, trace)
    ensures WriteReady(trace.peer)
    ensures Sound(env, Next(env, trace, step))
  {
    SoundIsWriteReady(env, trace);
    if trace.open {
      hide Sound, EncodesLines, Next, WriteReady;
      if step.Execute? || step.Answer? || step.Publish? || step.Feed? || step.Drain? {
        LiveStepIsSound(env, trace, step);
      } else if step.Refuse? || step.Establish? || step.Write? || step.Shutdown? {
        EdgeStepIsSound(env, trace, step);
      } else {
        QuietStepIsSound(env, trace, step);
      }
    }
  }

  // The trace after a whole run; every state on the way is sound.
  function RunOf(env: Environment, transport: Transport, revision: nat, steps: seq<Step>): (trace: Trace)
    requires EncodesLines(env)
    ensures Sound(env, trace)
  {
    if steps == [] then Start(transport, revision)
    else
      var before := RunOf(env, transport, revision, steps[..|steps| - 1]);
      NextIsSound(env, before, steps[|steps| - 1]);
      Next(env, before, steps[|steps| - 1])
  }

  // In every reachable state of every peer, raw or web, the ledger is the list of lengths of
  // the accounted session records at the front of the queue, and discarding any queued record
  // releases exactly the entry that mirrors it.
  lemma EveryRunKeepsTheLedger(env: Environment, transport: Transport, revision: nat, steps: seq<Step>)
    requires EncodesLines(env)
    ensures var trace := RunOf(env, transport, revision, steps);
            trace.open ==>
              && Aligned(trace.peer)
              && |trace.peer.outbound| <= OUTBOUND_CAPACITY
              && forall index :: 0 <= index < |trace.peer.outbound| ==>
                   && Aligned(Discarded(trace.peer, index))
                   && (trace.peer.outbound[index].InLedger() ==>
                         && index < |trace.peer.session.value.sizes|
                         && trace.peer.session.value.sizes[index] == |trace.peer.outbound[index].write.bytes|)
  {
    var trace := RunOf(env, transport, revision, steps);
    if trace.open {
      forall index | 0 <= index < |trace.peer.outbound|
        ensures Aligned(Discarded(trace.peer, index))
        ensures trace.peer.outbound[index].InLedger() ==>
                  && trace.peer.session.Some?
                  && index < |trace.peer.session.value.sizes|
                  && trace.peer.session.value.sizes[index] == |trace.peer.outbound[index].write.bytes|
      {
        DiscardedKeepsAlignment(trace.peer, index);
      }
    }
  }
}
