// One peer of the daemon's scheduler: phases, a bounded outbound queue mirrored by the session
// ledger, two lossy slots and the write pass (apps/freemixd/src/non_native_sessions.rs).
module Peer {
  import opened Basics
  import opened Wire

  const OUTBOUND_CAPACITY: nat := 32

  datatype Phase = AwaitHandshake | Syncing | Active | Closing
  datatype Accounting = RawAccounting | SessionAccounting
  datatype Transport = Raw | Web

  datatype Message =
    | HandshakeResponse(accepted: bool)
    | Snapshot(revision: nat)
    | Event(revision: nat, origin: Option<nat>)
    | RuntimeEvent(tag: nat)
    | CommandResult(command: nat)
    | Reply(tag: nat)
    | Goodbye

  datatype Outbound = Outbound(
    message: Message,
    write: PendingWrite,
    accounting: Accounting,
    accounted: bool,
    channelSent: bool)
  {
    // Part of the record may already have left the daemon.
    predicate InFlight() { channelSent || write.Started() }

    predicate InLedger() { accounted && accounting.SessionAccounting? }
  }

  function Sum(sizes: seq<nat>): nat {
    if sizes == [] then 0 else sizes[0] + Sum(sizes[1..])
  }

  function Without<T>(items: seq<T>, index: nat): (rest: seq<T>)
    requires index < |items|
    ensures |rest| == |items| - 1
  {
    items[..index] + items[index + 1..]
  }

  // The session's outbound ledger (crates/services/fm-server/src/session.rs).
  datatype Session = Session(sizes: seq<nat>, messagesQueued: int, bytesQueued: int) {
    predicate Balanced() { messagesQueued == |sizes| && bytesQueued == Sum(sizes) }

    function QueueOutbound(bytes: nat): Session {
      Session(sizes + [bytes], messagesQueued + 1, bytesQueued + bytes)
    }

    function Release(index: nat): (released: Option<Session>) {
      if index < |sizes| then
        Some(Session(Without(sizes, index), messagesQueued - 1, bytesQueued - sizes[index]))
      else None
    }
  }

  const NEW_SESSION := Session([], 0, 0)

  // What one subscriber has yet to take; `detached` once its queue overflowed.
  datatype Subscription = Subscription(queue: seq<Message>, detached: bool)

  datatype PeerState = PeerState(
    transport: Transport,
    phase: Phase,
    handshakeWritten: bool,
    session: Option<Session>,
    subscription: Option<Subscription>,
    initialSync: seq<Message>,
    outbound: seq<Outbound>,
    lossy: bool,
    meter: LatestRecord,
    status: LatestRecord)

  // The line encoder, the size of a subscription queue and the bound on an initial sync.
  datatype Environment = Environment(encode: Message -> Option<seq<byte>>, subscriberQueue: nat, syncLimit: nat)

  ghost predicate EncodesLines(env: Environment) {
    forall m: Message :: env.encode(m).Some? ==> LineShaped(env.encode(m).value)
  }

  function NewPeer(transport: Transport): PeerState {
    PeerState(transport, AwaitHandshake, false, None, None, [], [], false, EMPTY_SLOT, EMPTY_SLOT)
  }

  // ----- the outbound queue -----

  // `admitted` is the session's answer when it is asked to account for the record.
  function Queued(env: Environment, peer: PeerState, message: Message, accounting: Accounting, admitted: bool)
    : (queued: Option<PeerState>)
  {
    if |peer.outbound| >= OUTBOUND_CAPACITY || env.encode(message).None? then None
    else
      var bytes := env.encode(message).value;
      var accounted := peer.transport.Raw?;
      var record := Outbound(message, PendingWrite(bytes, 0), accounting, accounted, false);
      if accounted && accounting.SessionAccounting? then
        if peer.session.None? || !admitted then None
        else Some(peer.(session := Some(peer.session.value.QueueOutbound(|bytes|)),
                        outbound := peer.outbound + [record]))
      else Some(peer.(outbound := peer.outbound + [record]))
  }

  function Discarded(peer: PeerState, index: nat): (rest: PeerState)
    requires index < |peer.outbound|
    ensures |rest.outbound| == |peer.outbound| - 1
  {
    var trimmed := peer.(outbound := Without(peer.outbound, index));
    if peer.outbound[index].InLedger() && peer.session.Some? && peer.session.value.Release(index).Some?
    then trimmed.(session := peer.session.value.Release(index))
    else trimmed
  }

  function DiscardedDownTo(peer: PeerState, retained: nat): (rest: PeerState)
    decreases |peer.outbound|
  {
    if |peer.outbound| <= retained then peer
    else DiscardedDownTo(Discarded(peer, |peer.outbound| - 1), retained)
  }

  function Retained(peer: PeerState): nat {
    if peer.outbound != [] && peer.outbound[0].InFlight() then 1 else 0
  }

  function ReplacedForShutdown(peer: PeerState): (rest: PeerState) {
    DiscardedDownTo(peer, Retained(peer))
  }

  predicate Removable(record: Outbound) { !record.message.CommandResult? && !record.InFlight() }

  // The last removable record below `limit`.
  function LastRemovable(outbound: seq<Outbound>, limit: nat): (index: Option<nat>)
    requires limit <= |outbound|
    ensures index.Some? ==>
              && index.value < limit && Removable(outbound[index.value])
              && forall i :: index.value < i < limit ==> !Removable(outbound[i])
    ensures index.None? ==> forall i :: 0 <= i < limit ==> !Removable(outbound[i])
  {
    if limit == 0 then None
    else if Removable(outbound[limit - 1]) then Some(limit - 1)
    else LastRemovable(outbound, limit - 1)
  }

  function PreservedForShutdown(peer: PeerState): (rest: PeerState) {
    if |peer.outbound| < OUTBOUND_CAPACITY then peer
    else match LastRemovable(peer.outbound, |peer.outbound|)
         case None => peer
         case Some(index) => Discarded(peer, index)
  }

  // ----- the write pass -----

  datatype WriteOutcome = Pending | HandshakeResponseWritten | WriteFailed

  // What one pass did: the peer it left, the bytes and whole records that reached the wire,
  // and the queued messages whose delivery it completed.
  datatype Pass = Pass(
    peer: PeerState, bytes: seq<byte>, records: seq<seq<byte>>, delivered: seq<Message>, outcome: WriteOutcome)

  datatype Finish = Finish(peer: PeerState, outcome: WriteOutcome)

  function FinishOutbound(peer: PeerState): (finish: Finish)
    requires peer.outbound != []
  {
    var record := peer.outbound[0];
    var popped := peer.(outbound := peer.outbound[1..]);
    if record.InLedger() && (peer.session.None? || peer.session.value.Release(0).None?) then
      Finish(popped, WriteFailed)
    else
      var released := if record.InLedger() then popped.(session := peer.session.value.Release(0)) else popped;
      if record.message.HandshakeResponse? then
        Finish(released.(handshakeWritten := true), HandshakeResponseWritten)
      else Finish(released, Pending)
  }

  predicate WriteReady(peer: PeerState) {
    && peer.meter.Valid() && peer.status.Valid()
    && (peer.outbound != [] ==> peer.outbound[0].write.Unfinished())
  }

  function SlotOutcome(progress: Progress): WriteOutcome {
    if progress.Failed? then WriteFailed else Pending
  }

  function WriteMeter(peer: PeerState, answer: WriteAnswer): Pass
    requires WriteReady(peer)
  {
    var result := WriteSlot(peer.meter, answer);
    Pass(peer.(meter := result.slot), result.bytes, result.done, [], SlotOutcome(result.progress))
  }

  function WriteStatus(peer: PeerState, answer: WriteAnswer): Pass
    requires WriteReady(peer)
  {
    var result := WriteSlot(peer.status, answer);
    Pass(peer.(status := result.slot), result.bytes, result.done, [], SlotOutcome(result.progress))
  }

  // No record is in flight and nothing is queued, so both slots are tried.
  predicate Idle(peer: PeerState) {
    !peer.meter.Started() && !peer.status.Started() && peer.outbound == []
  }

  function WriteRaw(peer: PeerState, first: WriteAnswer, second: WriteAnswer): (pass: Pass)
    requires WriteReady(peer)
  {
    if peer.meter.Started() then WriteMeter(peer, first)
    else if peer.status.Started() then WriteStatus(peer, first)
    else if peer.outbound == [] then
      var meter := WriteMeter(peer, first);
      if meter.outcome.WriteFailed? then meter
      else
        var status := WriteStatus(meter.peer, second);
        Pass(status.peer, meter.bytes + status.bytes, meter.records + status.records, [], status.outcome)
    else
      var record := peer.outbound[0];
      var written := WriteOnce(record.write, first);
      match written.progress
      case Complete =>
        var finish := FinishOutbound(peer);
        Pass(finish.peer, written.bytes, [record.write.bytes], [record.message], finish.outcome)
      case _ =>
        var kept := peer.(outbound := [record.(write := written.write)] + peer.outbound[1..]);
        Pass(kept, written.bytes, [], [], SlotOutcome(written.progress))
  }

  // What the web channel answers: whether an acknowledgement is waiting, and whether a send fits.
  datatype WebAnswer = WebAnswer(acknowledged: Option<bool>, sends: bool)

  function WriteWeb(peer: PeerState, admitted: bool, web: WebAnswer): (pass: Pass) {
    if peer.outbound == [] then Pass(peer, [], [], [], Pending)
    else
      var record := peer.outbound[0];
      if record.channelSent then
        match web.acknowledged
        case Some(true) =>
          var finish := FinishOutbound(peer);
          Pass(finish.peer, [], [], [record.message], finish.outcome)
        case Some(false) => Pass(peer, [], [], [], WriteFailed)
        case None => Pass(peer, [], [], [], Pending)
      else if record.accounting.SessionAccounting? && !record.accounted && (peer.session.None? || !admitted) then
        Pass(peer, [], [], [], WriteFailed)
      else
        var counted :=
          if record.accounting.SessionAccounting? && !record.accounted then
            peer.(session := Some(peer.session.value.QueueOutbound(|record.write.bytes|)),
                  outbound := [record.(accounted := true)] + peer.outbound[1..])
          else peer;
        if web.sends then
          Pass(counted.(outbound := [counted.outbound[0].(channelSent := true)] + counted.outbound[1..]),
               [], [], [], Pending)
        else Pass(counted, [], [], [], WriteFailed)
  }

  // ----- the peer as an object -----

  class PeerObject {
    const env: Environment
    const transport: Transport
    var phase: Phase
    var handshakeWritten: bool
    var session: Option<Session>
    var subscription: Option<Subscription>
    var initialSync: seq<Message>
    var outbound: seq<Outbound>
    var lossy: bool
    var meter: LatestRecord
    var status: LatestRecord

    ghost function View(): (peer: PeerState)
      reads this
    {
      PeerState(transport, phase, handshakeWritten, session, subscription, initialSync, outbound, lossy, meter, status)
    }

    constructor (env: Environment, transport: Transport)
      ensures this.env == env && View() == NewPeer(transport)
    {
      this.env, this.transport := env, transport;
      phase, handshakeWritten, session, subscription := AwaitHandshake, false, None, None;
      initialSync, outbound, lossy, meter, status := [], [], false, EMPTY_SLOT, EMPTY_SLOT;
    }

    method Queue(message: Message, accounting: Accounting, admitted: bool) returns (ok: bool)
      modifies this
      ensures ok == Queued(env, old(View()), message, accounting, admitted).Some?
      ensures View() == if ok then Queued(env, old(View()), message, accounting, admitted).value else old(View())
    {
      if |outbound| >= OUTBOUND_CAPACITY {
        return false;
      }
      var encoded := env.encode(message);
      if encoded.None? {
        return false;
      }
      var accounted := transport.Raw?;
      if accounting.SessionAccounting? && accounted {
        if session.None? || !admitted {
          return false;
        }
        session := Some(session.value.QueueOutbound(|encoded.value|));
      }
      outbound := outbound + [Outbound(message, PendingWrite(encoded.value, 0), accounting, accounted, false)];
      return true;
    }

    // Feeding stops at capacity, at the end of the sync or at the first refusal.
    method FeedInitialSync(admissions: seq<bool>) returns (ok: bool)
      requires |admissions| == |initialSync|
      modifies this
      ensures ok == Fed(env, old(View()), admissions).Some?
      ensures ok ==> View() == Fed(env, old(View()), admissions).value
    {
      ghost var before := View();
      var used := 0;
      while |outbound| < OUTBOUND_CAPACITY && initialSync != []
        invariant used + |initialSync| == |admissions|
        invariant Fed(env, View(), admissions[used..]) == Fed(env, before, admissions)
        decreases |initialSync|
      {
        var message := initialSync[0];
        initialSync := initialSync[1..];
        var queued := Queue(message, SessionAccounting, admissions[used]);
        assert admissions[used..][1..] == admissions[used + 1..];
        used := used + 1;
        if !queued {
          return false;
        }
      }
      return true;
    }

    method DiscardOutbound(index: nat)
      requires index < |outbound|
      modifies this
      ensures View() == Discarded(old(View()), index)
    {
      var record := outbound[index];
      outbound := Without(outbound, index);
      if record.InLedger() && session.Some? {
        var released := session.value.Release(index);
        if released.Some? {
          session := released;
        }
      }
    }

    method ReplaceOutboundForShutdown()
      modifies this
      ensures View() == ReplacedForShutdown(old(View()))
    {
      ghost var before := View();
      var retained := if outbound != [] && outbound[0].InFlight() then 1 else 0;
      while |outbound| > retained
        invariant DiscardedDownTo(View(), retained) == DiscardedDownTo(before, retained)
        decreases |outbound|
      {
        DiscardOutbound(|outbound| - 1);
      }
    }

    method PreserveOutboundForShutdown()
      modifies this
      ensures View() == PreservedForShutdown(old(View()))
    {
      if |outbound| < OUTBOUND_CAPACITY {
        return;
      }
      var limit: nat := |outbound|;
      while limit > 0 && !Removable(outbound[limit - 1])
        invariant limit <= |outbound|
        invariant LastRemovable(outbound, |outbound|) == LastRemovable(outbound, limit)
      {
        limit := limit - 1;
      }
      if limit > 0 {
        DiscardOutbound(limit - 1);
      }
    }

    method WriteRawPass(first: WriteAnswer, second: WriteAnswer) returns (bytes: seq<byte>, outcome: WriteOutcome)
      requires WriteReady(View())
      modifies this
      ensures var pass := WriteRaw(old(View()), first, second);
              View() == pass.peer && bytes == pass.bytes && outcome == pass.outcome
    {
      hide LineShaped, WriteOnce, WriteSlot, FinishOutbound;
      if meter.Started() {
        var result := WriteSlot(meter, first);
        meter := result.slot;
        return result.bytes, SlotOutcome(result.progress);
      }
      if status.Started() {
        var result := WriteSlot(status, first);
        status := result.slot;
        return result.bytes, SlotOutcome(result.progress);
      }
      if outbound == [] {
        var metered := WriteSlot(meter, first);
        meter := metered.slot;
        if metered.progress.Failed? {
          return metered.bytes, WriteFailed;
        }
        var reported := WriteSlot(status, second);
        status := reported.slot;
        return metered.bytes + reported.bytes, SlotOutcome(reported.progress);
      }
      var record := outbound[0];
      var written := WriteOnce(record.write, first);
      if written.progress.Complete? {
        outcome := FinishFront();
        return written.bytes, outcome;
      }
      outbound := [record.(write := written.write)] + outbound[1..];
      return written.bytes, SlotOutcome(written.progress);
    }

    method FinishFront() returns (outcome: WriteOutcome)
      requires outbound != []
      modifies this
      ensures Finish(View(), outcome) == FinishOutbound(old(View()))
    {
      var record := outbound[0];
      outbound := outbound[1..];
      if record.InLedger() {
        if session.None? || session.value.Release(0).None? {
          return WriteFailed;
        }
        session := session.value.Release(0);
      }
      if record.message.HandshakeResponse? {
        handshakeWritten := true;
        return HandshakeResponseWritten;
      }
      return Pending;
    }
  }

  // Moving the initial sync into the outbound queue, one message at a time.
  function Fed(env: Environment, peer: PeerState, admissions: seq<bool>): (fed: Option<PeerState>)
    requires |admissions| == |peer.initialSync|
    decreases |peer.initialSync|
  {
    if |peer.outbound| >= OUTBOUND_CAPACITY || peer.initialSync == [] then Some(peer)
    else
      match FedOne(env, peer, admissions[0])
      case None => None
      case Some(next) => Fed(env, next, admissions[1..])
  }

  function FedOne(env: Environment, peer: PeerState, admitted: bool): (fed: Option<PeerState>)
    requires peer.initialSync != []
    ensures fed.Some? ==> fed.value.initialSync == peer.initialSync[1..]
  {
    Queued(env, peer.(initialSync := peer.initialSync[1..]), peer.initialSync[0], SessionAccounting, admitted)
  }
}
