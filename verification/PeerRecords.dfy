// What a raw peer was delivered is on its wire: the encoded messages are among the whole
// records, in order.
module PeerRecords {
  import opened Basics
  import opened Wire
  import opened Peer
  import opened PeerRun
  import opened PeerLedger
  import opened PeerFraming
  import opened Delivery
  import opened PeerDelivery

  // `small` is what is left of `large` when some of its elements are struck out.
  predicate Subsequence<T(==)>(small: seq<T>, large: seq<T>) {
    if small == [] then true
    else if large == [] then false
    else if small[|small| - 1] == large[|large| - 1] then
      Subsequence(small[..|small| - 1], large[..|large| - 1])
    else Subsequence(small, large[..|large| - 1])
  }

  lemma {:induction false} ShorterIsSubsequence<T>(small: seq<T>, large: seq<T>)
    requires small != [] && Subsequence(small, large)
    ensures Subsequence(small[..|small| - 1], large)
    decreases |large|, 0
  {
    var shorter, front := small[..|small| - 1], large[..|large| - 1];
    if small[|small| - 1] == large[|large| - 1] {
      SubsequenceOfLonger(shorter, front, large[|large| - 1]);
      assert front + [large[|large| - 1]] == large;
    } else {
      ShorterIsSubsequence(small, front);
      SubsequenceOfLonger(shorter, front, large[|large| - 1]);
      assert front + [large[|large| - 1]] == large;
    }
  }

  lemma {:induction false} SubsequenceOfLonger<T>(small: seq<T>, large: seq<T>, last: T)
    requires Subsequence(small, large)
    ensures Subsequence(small, large + [last])
    decreases |large|, 1
  {
    assert (large + [last])[..|large|] == large;
    if small != [] && small[|small| - 1] == last {
      ShorterIsSubsequence(small, large);
    }
  }

  lemma BothLonger<T>(small: seq<T>, large: seq<T>, last: T)
    requires Subsequence(small, large)
    ensures Subsequence(small + [last], large + [last])
  {
    assert (small + [last])[..|small|] == small && (large + [last])[..|large|] == large;
  }

  lemma {:induction false} SubsequenceOfMore<T>(small: seq<T>, large: seq<T>, more: seq<T>)
    requires Subsequence(small, large)
    ensures Subsequence(small, large + more)
  {
    if more == [] {
      assert large + more == large;
    } else {
      var front, last := more[..|more| - 1], more[|more| - 1];
      SubsequenceOfMore(small, large, front);
      SubsequenceOfLonger(small, large + front, last);
      assert large + front + [last] == large + more;
    }
  }

  // ----- delivered messages and records -----

  function Encodings(env: Environment, messages: seq<Message>): (lines: seq<Option<seq<byte>>>)
    ensures |lines| == |messages|
    ensures forall i :: 0 <= i < |messages| ==> lines[i] == env.encode(messages[i])
  {
    seq(|messages|, i requires 0 <= i < |messages| => env.encode(messages[i]))
  }

  function Lines(records: seq<seq<byte>>): (lines: seq<Option<seq<byte>>>)
    ensures |lines| == |records|
    ensures forall i :: 0 <= i < |records| ==> lines[i] == Some(records[i])
  {
    seq(|records|, i requires 0 <= i < |records| => Some(records[i]))
  }

  // On a raw peer the encodings of what was delivered are among the whole records, in order.
  ghost predicate OnTheWire(env: Environment, trace: Trace) {
    trace.peer.transport.Raw? ==> Subsequence(Encodings(env, trace.delivered), Lines(trace.records))
  }

  // A raw pass completes the front record and delivers its message, or delivers nothing.
  lemma RawPassOnTheWire(env: Environment, peer: PeerState, first: WriteAnswer, second: WriteAnswer)
    requires Shaped(env, peer) && WriteReady(peer)
    ensures var pass := WriteRaw(peer, first, second);
            || pass.delivered == []
            || (|pass.delivered| == 1 && |pass.records| == 1 && env.encode(pass.delivered[0]) == Some(pass.records[0]))
  {
    if peer.meter.Started() || peer.status.Started() || peer.outbound == [] {
      SlotPassDeliversNothing(peer, first, second);
    } else {
      ShapedAt(env, peer, 0);
      hide WriteOnce, WriteSlot, LineShaped, FinishOutbound;
    }
  }

  lemma WrittenOnTheWire(env: Environment, trace: Trace, pass: Pass)
    requires Subsequence(Encodings(env, trace.delivered), Lines(trace.records))
    requires || pass.delivered == []
             || (|pass.delivered| == 1 && |pass.records| == 1 && env.encode(pass.delivered[0]) == Some(pass.records[0]))
    ensures Subsequence(Encodings(env, trace.delivered + pass.delivered), Lines(trace.records + pass.records))
  {
    var said, lines := Encodings(env, trace.delivered), Lines(trace.records);
    hide Subsequence;
    if pass.delivered == [] {
      SubsequenceOfMore(said, lines, Lines(pass.records));
      assert trace.delivered + pass.delivered == trace.delivered;
      assert Lines(trace.records + pass.records) == lines + Lines(pass.records);
    } else {
      var line := Some(pass.records[0]);
      BothLonger(said, lines, line);
      assert Encodings(env, trace.delivered + pass.delivered) == said + [line];
      assert Lines(trace.records + pass.records) == lines + [line];
    }
  }

  lemma WritingOnTheWire(env: Environment, trace: Trace, first: WriteAnswer, second: WriteAnswer, admitted: bool, web: WebAnswer)
    requires Shaped(env, trace.peer) && WriteReady(trace.peer) && OnTheWire(env, trace)
    ensures OnTheWire(env, Writing(trace, first, second, admitted, web))
    ensures Writing(trace, first, second, admitted, web).peer.transport == trace.peer.transport
  {
    RawPassOnlyWrote(trace.peer, first, second);
    var after := Writing(trace, first, second, admitted, web);
    if trace.peer.transport.Raw? {
      var pass := WriteRaw(trace.peer, first, second);
      RawPassOnTheWire(env, trace.peer, first, second);
      assert after.delivered == trace.delivered + pass.delivered && after.records == trace.records + pass.records;
      hide Writing, WriteRaw, Subsequence, Shaped, WriteReady;
      WrittenOnTheWire(env, trace, pass);
    } else {
      WebPassOnlyWrote(trace.peer, admitted, web);
      hide WriteWeb, Messages, Subsequence, Shaped;
    }
  }

  ghost predicate Silent(before: Trace, after: Trace) {
    && after.delivered == before.delivered && after.records == before.records
    && after.peer.transport == before.peer.transport
  }

  lemma QueueingIsSilent(env: Environment, trace: Trace, message: Message, accounting: Accounting, admitted: bool)
    ensures Silent(trace, trace.With(Queued(env, trace.peer, message, accounting, admitted)))
  {
  }

  lemma ExecutingIsSilent(env: Environment, trace: Trace, accepted: bool, admitted: bool)
    ensures Silent(trace, ExecutingNext(env, trace, accepted, admitted))
  {
    var revision := if accepted then trace.revision + 1 else trace.revision;
    var published := if accepted then
        trace.peer.(subscription := Published(env, trace.peer.subscription, Event(revision, Some(trace.executed))))
      else trace.peer;
    hide Queued, Published;
    QueueingIsSilent(env, trace.(peer := published, revision := revision), CommandResult(trace.executed),
                     SessionAccounting, admitted);
  }

  lemma FeedingIsSilent(env: Environment, trace: Trace, admitted: bool)
    requires trace.peer.initialSync != []
    ensures Silent(trace, trace.With(FedOne(env, trace.peer, admitted)))
  {
    var popped := trace.peer.(initialSync := trace.peer.initialSync[1..]);
    hide Queued;
    QueueingIsSilent(env, trace.(peer := popped), trace.peer.initialSync[0], SessionAccounting, admitted);
  }

  lemma DrainingIsSilent(env: Environment, trace: Trace, admitted: bool)
    ensures Silent(trace, Draining(env, trace, admitted))
  {
    hide Queued;
    if trace.peer.subscription.Some? && trace.peer.subscription.value.queue != [] {
      QueueingIsSilent(env, Drained(trace), trace.peer.subscription.value.queue[0], SessionAccounting, admitted);
    }
  }

  lemma PublishingIsSilent(env: Environment, trace: Trace, durable: bool)
    ensures Silent(trace, Publishing(env, trace, durable))
  {
    hide Published;
  }

  lemma SilentItself(trace: Trace)
    ensures Silent(trace, trace)
  {
  }

  lemma LiveStepIsSilent(env: Environment, trace: Trace, step: Step)
    requires WriteReady(trace.peer) && trace.open
    requires step.Execute? || step.Answer? || step.Publish? || step.Feed? || step.Drain?
    ensures Silent(trace, Next(env, trace, step))
  {
    hide Silent, Queued, FedOne, ExecutingNext, Publishing, Draining, WriteReady;
    SilentItself(trace);
    match step
    case Execute(accepted, admitted) => ExecutingIsSilent(env, trace, accepted, admitted);
    case Answer(tag, admitted) => QueueingIsSilent(env, trace, Reply(tag), SessionAccounting, admitted);
    case Publish(durable) => PublishingIsSilent(env, trace, durable);
    case Feed(admitted) => if trace.peer.initialSync != [] { FeedingIsSilent(env, trace, admitted); }
    case Drain(admitted) => DrainingIsSilent(env, trace, admitted);
  }

  lemma EstablishingIsSilent(env: Environment, trace: Trace, sync: Sync, studio: bool, admitted: bool)
    ensures Silent(trace, Establishing(env, trace, sync, studio, admitted))
  {
    hide EventsAfter;
  }

  lemma RefusingIsSilent(env: Environment, trace: Trace, message: Message)
    ensures Silent(trace, Refusing(env, trace, message))
  {
  }

  lemma EdgeStepIsSilent(env: Environment, trace: Trace, step: Step)
    requires WriteReady(trace.peer) && trace.open
    requires step.Refuse? || step.Establish? || step.Shutdown?
    ensures Silent(trace, Next(env, trace, step))
  {
    hide Silent, Refusing, Establishing, ShuttingDown, WriteReady;
    SilentItself(trace);
    match step
    case Refuse(message) => RefusingIsSilent(env, trace, message);
    case Establish(sync, studio, admitted) => EstablishingIsSilent(env, trace, sync, studio, admitted);
    case Shutdown(replace, admitted) => ShutdownIsSilent(env, trace, replace, admitted);
  }

  lemma ShutdownIsSilent(env: Environment, trace: Trace, replace: bool, admitted: bool)
    ensures Silent(trace, ShuttingDown(env, trace, replace, admitted))
  {
    TrimmedContents(trace.peer, replace);
    hide Trimmed;
  }

  // Nothing but a write delivers a message or completes a record.
  lemma OnlyWritesDeliver(env: Environment, trace: Trace, step: Step)
    requires WriteReady(trace.peer) && !step.Write?
    ensures Silent(trace, Next(env, trace, step))
  {
    if trace.open {
      if step.Execute? || step.Answer? || step.Publish? || step.Feed? || step.Drain? {
        hide Next, WriteReady, Silent;
        LiveStepIsSilent(env, trace, step);
      } else if step.Refuse? || step.Establish? || step.Shutdown? {
        hide Next, WriteReady, Silent;
        EdgeStepIsSilent(env, trace, step);
      } else {
        hide WriteReady, LineShaped;
      }
    }
  }

  lemma {:induction false} EveryRunIsOnTheWire(env: Environment, transport: Transport, revision: nat, steps: seq<Step>)
    requires EncodesLines(env)
    ensures OnTheWire(env, RunOf(env, transport, revision, steps))
    ensures RunOf(env, transport, revision, steps).peer.transport == transport
  {
    if steps != [] {
      var front, step := steps[..|steps| - 1], steps[|steps| - 1];
      var before := RunOf(env, transport, revision, front);
      EveryRunIsOnTheWire(env, transport, revision, front);
      SoundIsWriteReady(env, before);
      StepOnTheWire(env, before, step);
      hide OnTheWire, Sound, EncodesLines, Next, WriteReady;
    }
  }

  lemma StepOnTheWire(env: Environment, trace: Trace, step: Step)
    requires Sound(env, trace) && WriteReady(trace.peer) && OnTheWire(env, trace)
    ensures OnTheWire(env, Next(env, trace, step))
    ensures Next(env, trace, step).peer.transport == trace.peer.transport
  {
    if step.Write? {
      if trace.open {
        hide OnTheWire, WriteReady, Shaped, Aligned, Writing;
        WritingOnTheWire(env, trace, step.first, step.second, step.admitted, step.web);
      }
    } else {
      OnlyWritesDeliver(env, trace, step);
      hide Next, WriteReady, Sound, Subsequence;
    }
  }

  // Delivery and framing meet: on every run of a raw peer over a socket that keeps the rule, the
  // bytes on the wire are whole records and part of one more, and the lawful conversation that
  // was delivered is, encoded, among those records in order; the others are lossy records.
  lemma TheWireCarriesTheConversation(env: Environment, revision: nat, steps: seq<Step>)
    requires EncodesLines(env)
    requires forall k :: 0 <= k < |steps| ==> Polite(RunOf(env, Raw, revision, steps[..k]), steps[k])
    ensures var trace := RunOf(env, Raw, revision, steps);
            && WriteReady(trace.peer) && trace.wire == Flatten(trace.records) + InFlight(trace.peer)
            && Subsequence(Encodings(env, trace.delivered), Lines(trace.records))
            && (trace.peer.session.Some? ==> Lawful(trace.sync, trace.base, Body(trace.delivered)))
  {
    EveryPoliteRunIsFramed(env, Raw, revision, steps);
    EveryRunIsOnTheWire(env, Raw, revision, steps);
    EveryRunDelivers(env, Raw, revision, steps);
    var trace := RunOf(env, Raw, revision, steps);
    hide RunOf, EncodesLines, Sound, WholeSync, Contiguous, Durables, Opening, ResultsFirst, Body, Subsequence, Polite;
    hide WriteReady, InFlight, Exclusive, Flatten, LineShaped;
  }
}
