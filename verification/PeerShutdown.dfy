// What a shutdown leaves in a peer's queue, in both modes, and when its goodbye gets through.
module PeerShutdown {
  import opened Basics
  import opened Wire
  import opened Peer
  import opened PeerRun
  import opened PeerLedger
  import opened Delivery
  import opened PeerDelivery

  // The records that a preserving shutdown must keep: results and whatever is in flight.
  function Kept(outbound: seq<Outbound>): (kept: seq<Outbound>) {
    if outbound == [] then []
    else
      var front := Kept(outbound[..|outbound| - 1]);
      var last := outbound[|outbound| - 1];
      if Removable(last) then front else front + [last]
  }

  lemma {:induction false} KeptAppend(left: seq<Outbound>, right: seq<Outbound>)
    ensures Kept(left + right) == Kept(left) + Kept(right)
  {
    if right == [] {
      assert left + right == left;
    } else {
      var front := right[..|right| - 1];
      KeptAppend(left, front);
      assert (left + right)[..|left + right| - 1] == left + front;
    }
  }

  lemma KeptWithout(outbound: seq<Outbound>, index: nat)
    requires index < |outbound| && Removable(outbound[index])
    ensures Kept(Without(outbound, index)) == Kept(outbound)
  {
    var left, right := outbound[..index], outbound[index + 1..];
    assert outbound == left + [outbound[index]] + right;
    KeptAppend(left + [outbound[index]], right);
    KeptAppend(left, [outbound[index]]);
    KeptAppend(left, right);
    assert Kept([outbound[index]]) == Kept([outbound[index]][..0]) == [];
  }

  // Preserving: the queue loses at most one record, only if it is full, never a result and
  // never one in flight; the rest keeps its order; and it stays full only if nothing in it
  // could be removed.
  lemma PreservingTrimsOne(peer: PeerState)
    requires |peer.outbound| <= OUTBOUND_CAPACITY
    ensures var before, after := peer.outbound, PreservedForShutdown(peer).outbound;
            && Kept(after) == Kept(before)
            && (after == before || exists index: nat :: index < |before| && Removable(before[index])
                                                        && after == Without(before, index))
            && (|before| < OUTBOUND_CAPACITY ==> after == before)
            && (|after| == OUTBOUND_CAPACITY ==> Kept(after) == after)
  {
    var before := peer.outbound;
    if |before| == OUTBOUND_CAPACITY {
      match LastRemovable(before, |before|)
      case Some(index) => KeptWithout(before, index);
      case None => AllKept(before);
    }
  }

  lemma {:induction false} AllKept(outbound: seq<Outbound>)
    requires forall i :: 0 <= i < |outbound| ==> !Removable(outbound[i])
    ensures Kept(outbound) == outbound
  {
    if outbound != [] {
      AllKept(outbound[..|outbound| - 1]);
    }
  }

  lemma {:induction false} KeptIsShorter(outbound: seq<Outbound>)
    ensures |Kept(outbound)| <= |outbound|
    ensures Kept(outbound) == outbound ==> forall i :: 0 <= i < |outbound| ==> !Removable(outbound[i])
  {
    if outbound != [] {
      var front := outbound[..|outbound| - 1];
      KeptIsShorter(front);
      if Kept(outbound) == outbound {
        assert !Removable(outbound[|outbound| - 1]);
        assert Kept(front) == Kept(outbound)[..|outbound| - 1] == front;
        forall i | 0 <= i < |outbound| ensures !Removable(outbound[i]) {
          assert i < |front| ==> outbound[i] == front[i];
        }
      }
    }
  }

  // Replacing: exactly the record in flight survives, so nothing removable does.
  lemma ReplacingKeepsTheFlight(env: Environment, peer: PeerState)
    requires Shaped(env, peer) && Aligned(peer) && !peer.phase.AwaitHandshake?
    ensures var after := ReplacedForShutdown(peer).outbound;
            && |after| <= 1 && after <= peer.outbound
            && (forall i :: 0 <= i < |peer.outbound| && peer.outbound[i].InFlight() ==> peer.outbound[i] in after)
            && (forall record :: record in after ==> record.InFlight())
  {
    DiscardedDownToIsSound(env, peer, Retained(peer));
    forall i | 0 <= i < |peer.outbound| && peer.outbound[i].InFlight() ensures i == 0 {
      ShapedAt(env, peer, i);
    }
  }

  // On every run: shutting a session down queues the goodbye last, unless it cannot be encoded
  // or the shutdown preserves a full queue of results and records in flight. A refusal of the
  // session to account for it is no obstacle.
  lemma GoodbyeIsQueued(env: Environment, transport: Transport, revision: nat, steps: seq<Step>, replace: bool, admitted: bool)
    requires EncodesLines(env)
    requires var trace := RunOf(env, transport, revision, steps);
             trace.open && trace.peer.handshakeWritten && (trace.peer.phase.Syncing? || trace.peer.phase.Active?)
    ensures var trace := RunOf(env, transport, revision, steps);
            var full := |trace.peer.outbound| == OUTBOUND_CAPACITY && Kept(trace.peer.outbound) == trace.peer.outbound;
            var said := Transcript(ShuttingDown(env, trace, replace, admitted));
            (said != [] && said[|said| - 1] == Goodbye) <==> (env.encode(Goodbye).Some? && (replace || !full))
  {
    var trace := RunOf(env, transport, revision, steps);
    assert trace.peer.session.Some? && Shaped(env, trace.peer) && Aligned(trace.peer);
    assert |trace.peer.outbound| <= OUTBOUND_CAPACITY;
    hide *;
    EveryRunIsOrdered(env, transport, revision, steps);
    TrimmedIsLawful(env, trace, replace);
    NoGoodbyeYet(trace.sync, trace.base, trace.delivered + Messages(Trimmed(trace.peer, replace).outbound));
    TrimmedContents(trace.peer, replace);
    RoomAfterTrimming(trace.peer, replace);
    GoodbyeFollows(env, trace, replace, admitted, Trimmed(trace.peer, replace));
  }

  lemma NoGoodbyeYet(sync: seq<Message>, base: nat, messages: seq<Message>)
    requires Lawful(sync, base, messages)
    ensures Goodbye !in messages
  {
  }

  lemma RoomAfterTrimming(peer: PeerState, replace: bool)
    requires |peer.outbound| <= OUTBOUND_CAPACITY
    ensures |Trimmed(peer, replace).outbound| < OUTBOUND_CAPACITY <==>
              (replace || !(|peer.outbound| == OUTBOUND_CAPACITY && Kept(peer.outbound) == peer.outbound))
  {
    TrimmedContents(peer, replace);
    KeptIsShorter(peer.outbound);
    if |peer.outbound| == OUTBOUND_CAPACITY && Dropped(peer).None? {
      AllKept(peer.outbound);
    }
    if Dropped(peer).Some? {
      assert Removable(peer.outbound[Dropped(peer).value]);
    }
    hide Trimmed, Kept;
  }

  lemma GoodbyeFollows(env: Environment, trace: Trace, replace: bool, admitted: bool, trimmed: PeerState)
    requires trace.peer.session.Some? && trace.peer.handshakeWritten
    requires trimmed == Trimmed(trace.peer, replace) && trimmed.session.Some?
    requires Goodbye !in trace.delivered + Messages(trimmed.outbound)
    ensures var said := Transcript(ShuttingDown(env, trace, replace, admitted));
            var kept := trace.delivered + Messages(trimmed.outbound);
            && said == (if env.encode(Goodbye).Some? && |trimmed.outbound| < OUTBOUND_CAPACITY
                        then kept + [Goodbye] else kept)
            && ((said != [] && said[|said| - 1] == Goodbye) <==>
                (env.encode(Goodbye).Some? && |trimmed.outbound| < OUTBOUND_CAPACITY))
  {
    LeaveTaking(env, trimmed, admitted);
    var session := Queued(env, trimmed, Goodbye, SessionAccounting, admitted);
    var raw := Queued(env, trimmed, Goodbye, RawAccounting, admitted);
    assert raw.Some? <==> (env.encode(Goodbye).Some? && |trimmed.outbound| < OUTBOUND_CAPACITY);
    assert session.Some? ==> raw.Some?;
    hide Queued, Trimmed, Messages;
    var kept := trace.delivered + Messages(trimmed.outbound);
    assert trace.delivered + (Messages(trimmed.outbound) + [Goodbye]) == kept + [Goodbye];
    var after := ShuttingDown(env, trace, replace, admitted);
    assert Transcript(after) == if raw.Some? then kept + [Goodbye] else kept;
    hide ShuttingDown, Transcript;
  }
}
