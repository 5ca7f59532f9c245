// The executions of one peer's commands are numbered, and each number has one result.
module PeerResults {
  import opened Basics
  import opened Wire
  import opened Peer
  import opened PeerRun
  import opened PeerLedger
  import opened Delivery
  import opened PeerDelivery

  // Results carry increasing numbers below `count`, so no number occurs twice.
  predicate Numbered(messages: seq<Message>, count: nat) {
    && (forall i :: 0 <= i < |messages| && messages[i].CommandResult? ==> messages[i].command < count)
    && (forall i, j :: 0 <= i < j < |messages| && messages[i].CommandResult? && messages[j].CommandResult? ==>
          messages[i].command < messages[j].command)
  }

  predicate NoResults(messages: seq<Message>) { forall i :: 0 <= i < |messages| ==> !messages[i].CommandResult? }

  lemma NumberedAppend(messages: seq<Message>, count: nat, message: Message)
    requires Numbered(messages, count) && !message.CommandResult?
    ensures Numbered(messages + [message], count)
  {
  }

  lemma NumberedResult(messages: seq<Message>, count: nat)
    requires Numbered(messages, count)
    ensures Numbered(messages + [CommandResult(count)], count + 1)
  {
  }

  lemma NumberedLater(messages: seq<Message>, count: nat)
    requires Numbered(messages, count)
    ensures Numbered(messages, count + 1)
  {
  }

  lemma NumberedPrefix(messages: seq<Message>, count: nat, size: nat)
    requires Numbered(messages, count) && size <= |messages|
    ensures Numbered(messages[..size], count)
  {
  }

  lemma NumberedWithout(messages: seq<Message>, count: nat, index: nat)
    requires Numbered(messages, count) && index < |messages|
    ensures Numbered(Without(messages, index), count)
  {
    var rest := Without(messages, index);
    assert forall i :: 0 <= i < |rest| ==> rest[i] == messages[if i < index then i else i + 1];
  }

  // What is queued or delivered is numbered, and no result waits anywhere else.
  ghost predicate Counted(trace: Trace) {
    trace.peer.session.Some? ==>
      && Numbered(Transcript(trace), trace.executed)
      && NoResults(trace.peer.initialSync)
      && (trace.peer.subscription.Some? ==> NoResults(trace.peer.subscription.value.queue))
  }

  // ----- steps -----

  lemma TranscriptOfQueued(env: Environment, trace: Trace, message: Message, accounting: Accounting, admitted: bool)
    ensures var queued := Queued(env, trace.peer, message, accounting, admitted);
            var after := trace.With(queued);
            && after.executed == trace.executed
            && after.peer.subscription == trace.peer.subscription && after.peer.initialSync == trace.peer.initialSync
            && (after.peer.session.Some? <==> trace.peer.session.Some?)
            && Transcript(after) == (if queued.Some? then Transcript(trace) + [message] else Transcript(trace))
  {
    if Queued(env, trace.peer, message, accounting, admitted).Some? {
      QueuedFacts(env, trace.peer, message, accounting, admitted);
      hide Queued, Messages;
      var outbound := Messages(trace.peer.outbound);
      assert trace.delivered + (outbound + [message]) == trace.delivered + outbound + [message];
    } else {
      ClosedTranscript(trace);
      hide Queued, Transcript;
    }
  }

  lemma QueueingIsCounted(env: Environment, trace: Trace, message: Message, admitted: bool)
    requires Counted(trace) && !message.CommandResult?
    ensures Counted(trace.With(Queued(env, trace.peer, message, SessionAccounting, admitted)))
  {
    TranscriptOfQueued(env, trace, message, SessionAccounting, admitted);
    hide Queued, Transcript, Numbered, NoResults;
    if trace.peer.session.Some? {
      NumberedAppend(Transcript(trace), trace.executed, message);
    }
  }

  // Taking a message out of the pending sync or the subscription.
  lemma PoppedIsCounted(trace: Trace, peer: PeerState)
    requires Counted(trace) && trace.peer.session.Some? && trace.peer.subscription.Some?
    requires || (trace.peer.initialSync != [] && peer == trace.peer.(initialSync := trace.peer.initialSync[1..]))
             || (var queue := trace.peer.subscription.value.queue;
                 queue != [] && peer == trace.peer.(subscription := Some(trace.peer.subscription.value.(queue := queue[1..]))))
    ensures Counted(trace.(peer := peer))
  {
    assert Transcript(trace.(peer := peer)) == Transcript(trace);
    hide Numbered, Transcript;
  }

  lemma ClosedIsCounted(trace: Trace)
    requires Counted(trace)
    ensures Counted(trace.Closed())
  {
    ClosedTranscript(trace);
    hide Numbered, NoResults, Transcript;
  }

  lemma FeedingIsCounted(env: Environment, trace: Trace, admitted: bool)
    requires Counted(trace) && trace.peer.session.Some? && trace.peer.subscription.Some? && trace.peer.initialSync != []
    ensures Counted(trace.With(FedOne(env, trace.peer, admitted)))
  {
    var popped := trace.peer.(initialSync := trace.peer.initialSync[1..]);
    var middle := trace.(peer := popped);
    PoppedIsCounted(trace, popped);
    ClosedIsCounted(trace);
    assert !trace.peer.initialSync[0].CommandResult?;
    assert FedOne(env, trace.peer, admitted) == Queued(env, popped, trace.peer.initialSync[0], SessionAccounting, admitted);
    hide Counted, FedOne, Queued;
    QueueingIsCounted(env, middle, trace.peer.initialSync[0], admitted);
    assert middle.With(FedOne(env, trace.peer, admitted)) == trace.With(FedOne(env, trace.peer, admitted))
           || FedOne(env, trace.peer, admitted).None?;
  }

  lemma DrainingIsCounted(env: Environment, trace: Trace, admitted: bool)
    requires Counted(trace) && trace.peer.session.Some? && trace.peer.subscription.Some?
    ensures Counted(Draining(env, trace, admitted))
  {
    var subscription := trace.peer.subscription.value;
    ClosedIsCounted(trace);
    if |trace.peer.outbound| < OUTBOUND_CAPACITY && subscription.queue != [] {
      var popped := trace.peer.(subscription := Some(subscription.(queue := subscription.queue[1..])));
      PoppedIsCounted(trace, popped);
      assert !subscription.queue[0].CommandResult?;
      hide Counted, Queued;
      QueueingIsCounted(env, trace.(peer := popped), subscription.queue[0], admitted);
    } else {
      hide Counted;
    }
  }

  lemma PublishedIsCounted(env: Environment, trace: Trace, message: Message, revision: nat)
    requires Counted(trace) && !message.CommandResult?
    ensures Counted(trace.(peer := trace.peer.(subscription := Published(env, trace.peer.subscription, message)),
                           revision := revision))
  {
    var after := trace.(peer := trace.peer.(subscription := Published(env, trace.peer.subscription, message)),
                        revision := revision);
    assert Transcript(after) == Transcript(trace);
    hide Numbered, Transcript;
  }

  // The trace between the publication of an event and the result that caused it.
  function BeforeResult(env: Environment, trace: Trace, accepted: bool): Trace {
    if accepted then Publicized(env, trace, trace.executed) else trace
  }

  lemma ExecutedTrace(env: Environment, trace: Trace, accepted: bool, admitted: bool)
    ensures var published := BeforeResult(env, trace, accepted);
            var result := CommandResult(trace.executed);
            ExecutingNext(env, trace, accepted, admitted) ==
              published.With(Queued(env, published.peer, result, SessionAccounting, admitted))
                .(executed := trace.executed + 1)
  {
    AcceptedTrace(env, trace, trace.executed, admitted);
    hide Queued, Published;
    assert trace.(peer := trace.peer, revision := trace.revision) == trace;
  }

  lemma ExecutingIsCounted(env: Environment, trace: Trace, accepted: bool, admitted: bool)
    requires Counted(trace) && trace.peer.session.Some?
    ensures Counted(ExecutingNext(env, trace, accepted, admitted))
  {
    var published := BeforeResult(env, trace, accepted);
    var result := CommandResult(trace.executed);
    PublishedIsCounted(env, trace, Event(trace.revision + 1, Some(trace.executed)), trace.revision + 1);
    assert Counted(published) && published.executed == trace.executed && published.peer.session == trace.peer.session;
    hide BeforeResult;
    ExecutedTrace(env, trace, accepted, admitted);
    TranscriptOfQueued(env, published, result, SessionAccounting, admitted);
    var before := published.With(Queued(env, published.peer, result, SessionAccounting, admitted));
    assert Transcript(before.(executed := trace.executed + 1)) == Transcript(before);
    hide ExecutingNext, Queued, NoResults, Numbered, Transcript;
    NumberedResult(Transcript(published), trace.executed);
    NumberedLater(Transcript(published), trace.executed);
  }

  lemma EstablishingIsCounted(env: Environment, trace: Trace, sync: Sync, studio: bool, admitted: bool)
    requires Counted(trace) && trace.open && Transcript(trace) == [] && trace.peer.session.None?
    ensures Counted(Establishing(env, trace, sync, studio, admitted))
  {
    var after := Establishing(env, trace, sync, studio, admitted);
    if after.open {
      EstablishedStory(env, trace, sync, studio, admitted);
      hide Establishing, Transcript;
      assert StoryOf(after).told == Transcript(after) && StoryOf(after).rest == after.peer.initialSync;
      assert StoryOf(after).events == after.peer.subscription.value.queue;
    }
  }

  lemma RefusingIsCounted(env: Environment, trace: Trace, message: Message)
    requires trace.peer.session.None?
    ensures Counted(Refusing(env, trace, message))
  {
    if Queued(env, trace.peer, message, RawAccounting, false).Some? {
      QueuedFacts(env, trace.peer, message, RawAccounting, false);
      hide Queued;
    }
  }

  lemma WritingIsCounted(trace: Trace, first: WriteAnswer, second: WriteAnswer, admitted: bool, web: WebAnswer)
    requires WriteReady(trace.peer) && Counted(trace)
    ensures Counted(Writing(trace, first, second, admitted, web))
  {
    PassKeepsTranscript(trace, first, second, admitted, web);
    hide Writing, Numbered, NoResults, Transcript;
  }

  lemma ShuttingDownIsCounted(env: Environment, trace: Trace, replace: bool, admitted: bool)
    requires Counted(trace)
    ensures Counted(ShuttingDown(env, trace, replace, admitted))
  {
    ClosedIsCounted(trace);
    if trace.peer.session.Some? && trace.peer.handshakeWritten {
      var trimmed := Trimmed(trace.peer, replace);
      TrimmedContents(trace.peer, replace);
      TrimmedIsNumbered(trace, replace);
      LeavingAddsGoodbye(env, trace, replace, admitted, trimmed);
      LeavingKeepsTheRest(env, trace, replace, admitted);
      hide Trimmed, ShuttingDown, Numbered, Transcript, Messages;
      NumberedAppend(trace.delivered + Messages(trimmed.outbound), trace.executed, Goodbye);
    } else {
      hide Counted;
    }
  }

  lemma LeavingKeepsTheRest(env: Environment, trace: Trace, replace: bool, admitted: bool)
    requires trace.peer.session.Some? && trace.peer.handshakeWritten
    ensures var after := ShuttingDown(env, trace, replace, admitted);
            after.peer.initialSync == [] && after.peer.subscription == trace.peer.subscription
  {
    TrimmedContents(trace.peer, replace);
    hide Trimmed;
  }

  lemma TrimmedIsNumbered(trace: Trace, replace: bool)
    requires Numbered(Transcript(trace), trace.executed)
    ensures Numbered(trace.delivered + Messages(Trimmed(trace.peer, replace).outbound), trace.executed)
  {
    TrimmedContents(trace.peer, replace);
    hide Numbered, Trimmed;
    if replace {
      CutMessages(trace, Retained(trace.peer));
      NumberedPrefix(Transcript(trace), trace.executed, |trace.delivered| + Retained(trace.peer));
    } else if Dropped(trace.peer).Some? {
      DroppedMessages(trace, Dropped(trace.peer).value);
      NumberedWithout(Transcript(trace), trace.executed, |trace.delivered| + Dropped(trace.peer).value);
    }
  }

  lemma DroppedMessages(trace: Trace, index: nat)
    requires index < |trace.peer.outbound|
    ensures |trace.delivered| + index < |Transcript(trace)|
    ensures Without(Transcript(trace), |trace.delivered| + index) ==
              trace.delivered + Messages(Without(trace.peer.outbound, index))
  {
  }

  lemma QuietStepIsCounted(env: Environment, trace: Trace, step: Step)
    requires WriteReady(trace.peer) && trace.open && Counted(trace)
    requires step.BecomeActive? || step.ReplaceMeter? || step.ReplaceStatus? || step.Close?
    ensures Counted(Next(env, trace, step))
  {
    hide Numbered, NoResults, LineShaped, WriteReady;
    assert Transcript(Next(env, trace, step)) == Transcript(trace);
  }

  lemma LiveStepIsCounted(env: Environment, trace: Trace, step: Step)
    requires WriteReady(trace.peer) && trace.open && Counted(trace)
    requires trace.peer.phase.Syncing? || trace.peer.phase.Active? ==>
               trace.peer.session.Some? && trace.peer.subscription.Some?
    requires step.Execute? || step.Answer? || step.Publish? || step.Feed? || step.Drain?
    ensures Counted(Next(env, trace, step))
  {
    hide Counted, FedOne, Queued, ExecutingNext, Draining, WriteReady;
    var peer := trace.peer;
    match step
    case Execute(accepted, admitted) =>
      if peer.phase.Active? { ExecutingIsCounted(env, trace, accepted, admitted); }
    case Answer(tag, admitted) =>
      if peer.phase.Active? { QueueingIsCounted(env, trace, Reply(tag), admitted); }
    case Publish(durable) =>
      var revision := if durable then trace.revision + 1 else trace.revision;
      PublishedIsCounted(env, trace, if durable then Event(revision, None) else RuntimeEvent(revision), revision);
    case Feed(admitted) =>
      if peer.phase.Syncing? && peer.initialSync != [] { FeedingIsCounted(env, trace, admitted); }
    case Drain(admitted) =>
      if peer.phase.Active? { DrainingIsCounted(env, trace, admitted); }
  }

  lemma EdgeStepIsCounted(env: Environment, trace: Trace, step: Step)
    requires WriteReady(trace.peer) && trace.open && Counted(trace)
    requires trace.peer.phase.AwaitHandshake? ==> trace.peer.session.None? && Transcript(trace) == []
    requires step.Refuse? || step.Establish? || step.Write? || step.Shutdown?
    ensures Counted(Next(env, trace, step))
  {
    hide Counted, Refusing, Establishing, Writing, ShuttingDown, WriteReady, Transcript;
    var peer := trace.peer;
    match step
    case Refuse(message) =>
      if peer.phase.AwaitHandshake? { RefusingIsCounted(env, trace, message); }
    case Establish(sync, studio, admitted) =>
      if peer.phase.AwaitHandshake? { EstablishingIsCounted(env, trace, sync, studio, admitted); }
    case Write(first, second, admitted, web) => WritingIsCounted(trace, first, second, admitted, web);
    case Shutdown(replace, admitted) =>
      if !(peer.phase.Closing? && peer.session.Some?) { ShuttingDownIsCounted(env, trace, replace, admitted); }
  }

  lemma NextIsCounted(env: Environment, trace: Trace, step: Step)
    requires Sound(env, trace) && WriteReady(trace.peer) && Ordered(trace) && Counted(trace)
    ensures Counted(Next(env, trace, step))
  {
    if trace.open {
      assert trace.peer.phase.AwaitHandshake? ==> trace.peer.session.None? && Transcript(trace) == [];
      assert trace.peer.phase.Syncing? || trace.peer.phase.Active? ==>
               trace.peer.session.Some? && trace.peer.subscription.Some?;
      hide Sound, Ordered, Counted, Next, WriteReady, Transcript;
      if step.Execute? || step.Answer? || step.Publish? || step.Feed? || step.Drain? {
        LiveStepIsCounted(env, trace, step);
      } else if step.Refuse? || step.Establish? || step.Write? || step.Shutdown? {
        EdgeStepIsCounted(env, trace, step);
      } else {
        QuietStepIsCounted(env, trace, step);
      }
    }
  }

  lemma {:induction false} EveryRunIsCounted(env: Environment, transport: Transport, revision: nat, steps: seq<Step>)
    requires EncodesLines(env)
    ensures Counted(RunOf(env, transport, revision, steps))
  {
    if steps != [] {
      var front := steps[..|steps| - 1];
      var before := RunOf(env, transport, revision, front);
      EveryRunIsCounted(env, transport, revision, front);
      EveryRunIsOrdered(env, transport, revision, front);
      hide Sound, Ordered, Counted, EncodesLines, Next, WriteReady;
      SoundIsWriteReady(env, before);
      NextIsCounted(env, before, steps[|steps| - 1]);
    }
  }

  // On every run the results delivered are those of distinct executions, in execution order;
  // and for each event of the peer's own that was delivered, the one result of the execution
  // that caused it was delivered before.
  lemma OneResultBeforeEachEvent(env: Environment, transport: Transport, revision: nat, steps: seq<Step>)
    requires EncodesLines(env)
    ensures var trace := RunOf(env, transport, revision, steps);
            var said := Body(trace.delivered);
            trace.peer.session.Some? ==>
              && Numbered(said, trace.executed)
              && (forall j :: 0 <= j < |said| && said[j].Event? && said[j].origin.Some? ==>
                    exists i :: 0 <= i < j && said[i] == CommandResult(said[j].origin.value))
  {
    EveryRunDelivers(env, transport, revision, steps);
    EveryRunIsCounted(env, transport, revision, steps);
    var trace := RunOf(env, transport, revision, steps);
    hide RunOf, EncodesLines, Sound, WholeSync, Contiguous, Durables, Opening;
    if trace.peer.session.Some? {
      SaidIsNumbered(trace);
      ResultsComeFirst(Body(trace.delivered));
    }
  }

  lemma ResultsComeFirst(said: seq<Message>)
    requires ResultsFirst(said)
    ensures forall j :: 0 <= j < |said| && said[j].Event? && said[j].origin.Some? ==>
              exists i :: 0 <= i < j && said[i] == CommandResult(said[j].origin.value)
  {
    forall j | 0 <= j < |said| && said[j].Event? && said[j].origin.Some?
      ensures exists i :: 0 <= i < j && said[i] == CommandResult(said[j].origin.value)
    {
      var result := CommandResult(said[j].origin.value);
      assert result in said[..j];
      var i :| 0 <= i < j && said[..j][i] == result;
      assert said[i] == result;
    }
  }

  lemma SaidIsNumbered(trace: Trace)
    requires Numbered(Transcript(trace), trace.executed)
    ensures Numbered(Body(trace.delivered), trace.executed)
  {
    var said := Body(trace.delivered);
    assert said == Transcript(trace)[..|said|];
    NumberedPrefix(Transcript(trace), trace.executed, |said|);
  }
}
