// Every run of a peer is a lawful conversation.
module PeerDelivery {
  import opened Basics
  import opened Wire
  import opened Peer
  import opened PeerRun
  import opened PeerLedger
  import opened Delivery

  function Messages(outbound: seq<Outbound>): (messages: seq<Message>)
    ensures |messages| == |outbound|
    ensures forall i :: 0 <= i < |outbound| ==> messages[i] == outbound[i].message
  {
    seq(|outbound|, i requires 0 <= i < |outbound| => outbound[i].message)
  }

  // Everything delivered so far or still queued, in order.
  function Transcript(trace: Trace): (messages: seq<Message>) { trace.delivered + Messages(trace.peer.outbound) }

  function StoryOf(trace: Trace): (story: Story)
    requires trace.peer.subscription.Some?
  {
    var subscription := trace.peer.subscription.value;
    Story(Transcript(trace), |trace.delivered|, trace.peer.initialSync, subscription.queue, subscription.detached,
          trace.sync, trace.base, trace.revision)
  }

  // While it lives, a session opens and then listens.
  ghost predicate Lively(trace: Trace) {
    && (trace.peer.phase.Syncing? ==> trace.peer.subscription.Some? && Opens(StoryOf(trace)))
    && (trace.peer.phase.Active? ==> trace.peer.subscription.Some? && Listens(StoryOf(trace)))
  }

  // A connection that never got a session carries at most one message; one that did carries a
  // lawful transcript.
  ghost predicate Ordered(trace: Trace) {
    if trace.peer.session.None? then
      && |Transcript(trace)| <= 1
      && (trace.peer.phase.AwaitHandshake? ==> Transcript(trace) == [])
    else
      && Lawful(trace.sync, trace.base, Body(Transcript(trace)))
      && (trace.open ==> Lively(trace))
  }

  // ----- from stories to traces -----

  lemma OpensIsOrdered(trace: Trace)
    requires trace.peer.session.Some? && trace.peer.subscription.Some? && trace.peer.phase.Syncing?
    requires Opens(StoryOf(trace))
    ensures Ordered(trace)
  {
    ToldIsLawful(StoryOf(trace));
    hide Opens, Lawful, Body, Transcript;
  }

  lemma ListensIsOrdered(trace: Trace)
    requires trace.peer.session.Some? && trace.peer.subscription.Some? && trace.peer.phase.Active?
    requires Listens(StoryOf(trace))
    ensures Ordered(trace)
  {
    ToldIsLawful(StoryOf(trace));
    hide Listens, Lawful, Body, Transcript;
  }

  // A closed trace with the same messages.
  lemma ClosedIsOrdered(before: Trace, after: Trace)
    requires Ordered(before) && before.peer.session.Some? && after.peer.session.Some? && !after.open
    requires Transcript(before) == Transcript(after) && before.sync == after.sync && before.base == after.base
    ensures Ordered(after)
  {
    hide Lawful, Lively, Body, Transcript;
  }

  // What queueing does and does not touch.
  lemma QueuedFacts(env: Environment, peer: PeerState, message: Message, accounting: Accounting, admitted: bool)
    requires Queued(env, peer, message, accounting, admitted).Some?
    ensures var queued := Queued(env, peer, message, accounting, admitted).value;
            && queued == peer.(session := queued.session, outbound := queued.outbound)
            && (queued.session.Some? <==> peer.session.Some?)
            && Messages(queued.outbound) == Messages(peer.outbound) + [message]
  {
  }

  // Queueing on a prepared peer adds one message to the story, or closes the trace.
  lemma StoryOfQueued(env: Environment, trace: Trace, message: Message, admitted: bool)
    requires trace.peer.subscription.Some?
    ensures var queued := Queued(env, trace.peer, message, SessionAccounting, admitted);
            var after := trace.With(queued);
            && after.peer.subscription == trace.peer.subscription
            && after.peer.phase == trace.peer.phase
            && (after.peer.session.Some? <==> trace.peer.session.Some?)
            && (queued.Some? ==>
                  && after.open == trace.open
                  && StoryOf(after) == StoryOf(trace).(told := Transcript(trace) + [message]))
            && (queued.None? ==> after == trace.Closed() && StoryOf(after) == StoryOf(trace))
  {
    var queued := Queued(env, trace.peer, message, SessionAccounting, admitted);
    if queued.Some? {
      QueuedFacts(env, trace.peer, message, SessionAccounting, admitted);
      hide Queued, Messages;
      var outbound := Messages(trace.peer.outbound);
      assert trace.delivered + (outbound + [message]) == trace.delivered + outbound + [message];
    }
  }

  // ----- steps of a living peer -----

  lemma FeedingIsOrdered(env: Environment, trace: Trace, admitted: bool)
    requires trace.peer.session.Some? && trace.open && trace.peer.phase.Syncing? && trace.peer.initialSync != []
    requires Ordered(trace)
    ensures Ordered(trace.With(FedOne(env, trace.peer, admitted)))
  {
    var message := trace.peer.initialSync[0];
    var popped := trace.(peer := trace.peer.(initialSync := trace.peer.initialSync[1..]));
    var after := trace.With(FedOne(env, trace.peer, admitted));
    StoryOfQueued(env, popped, message, admitted);
    assert FedOne(env, trace.peer, admitted).Some? ==>
             after == popped.With(Queued(env, popped.peer, message, SessionAccounting, admitted));
    assert FedOne(env, trace.peer, admitted).None? ==> after == trace.Closed();
    hide Opens, Listens, Lawful, Body, FedOne, Queued, Messages;
    if after.open {
      FeedStory(StoryOf(trace), StoryOf(after));
      OpensIsOrdered(after);
    } else {
      ClosedIsOrdered(trace, after);
    }
  }

  lemma DrainingIsOrdered(env: Environment, trace: Trace, admitted: bool)
    requires trace.peer.session.Some? && trace.open && trace.peer.phase.Active?
    requires Ordered(trace)
    ensures Ordered(Draining(env, trace, admitted))
  {
    hide *;
    ListeningTrace(trace);
    if |trace.peer.outbound| < OUTBOUND_CAPACITY && trace.peer.subscription.value.queue != [] {
      DrainedTrace(env, trace, admitted);
      DrainedIsOrdered(env, trace, Drained(trace), admitted);
    } else {
      NothingDrained(env, trace, admitted);
      ClosedTranscript(trace);
      ClosedFacts(trace);
      ClosedIsOrdered(trace, trace.Closed());
    }
  }

  // The trace with the first waiting event taken out of the subscription.
  function Drained(trace: Trace): Trace
    requires trace.peer.subscription.Some? && trace.peer.subscription.value.queue != []
  {
    var subscription := trace.peer.subscription.value;
    trace.(peer := trace.peer.(subscription := Some(subscription.(queue := subscription.queue[1..]))))
  }

  lemma DrainedTrace(env: Environment, trace: Trace, admitted: bool)
    requires trace.peer.subscription.Some? && trace.peer.subscription.value.queue != []
    requires |trace.peer.outbound| < OUTBOUND_CAPACITY
    ensures var popped, message := Drained(trace), trace.peer.subscription.value.queue[0];
            Draining(env, trace, admitted) ==
              popped.With(Queued(env, popped.peer, message, SessionAccounting, admitted))
  {
    hide Queued;
  }

  lemma NothingDrained(env: Environment, trace: Trace, admitted: bool)
    requires trace.peer.subscription.Some?
    requires |trace.peer.outbound| >= OUTBOUND_CAPACITY || trace.peer.subscription.value.queue == []
    ensures Draining(env, trace, admitted) == trace || Draining(env, trace, admitted) == trace.Closed()
  {
    hide Queued;
  }

  lemma DrainedIsOrdered(env: Environment, trace: Trace, popped: Trace, admitted: bool)
    requires trace.peer.session.Some? && trace.open && trace.peer.phase.Active? && Ordered(trace)
    requires trace.peer.subscription.Some? && trace.peer.subscription.value.queue != [] && Listens(StoryOf(trace))
    requires popped == Drained(trace)
    ensures var message := trace.peer.subscription.value.queue[0];
            Ordered(popped.With(Queued(env, popped.peer, message, SessionAccounting, admitted)))
  {
    var message := trace.peer.subscription.value.queue[0];
    var queued := Queued(env, popped.peer, message, SessionAccounting, admitted);
    var after := popped.With(queued);
    StoryOfDrained(trace);
    hide *;
    StoryOfQueued(env, popped, message, admitted);
    if queued.Some? {
      DrainStory(StoryOf(trace), StoryOf(after));
      ListensIsOrdered(after);
    } else {
      SameStorySameTranscript(popped, after);
      ClosedFacts(popped);
      ClosedIsOrdered(trace, after);
    }
  }

  lemma StoryOfDrained(trace: Trace)
    requires trace.peer.subscription.Some? && trace.peer.subscription.value.queue != []
    ensures var popped, story := Drained(trace), StoryOf(trace);
            && popped.peer.subscription.Some? && popped.peer.session == trace.peer.session
            && popped.peer.phase == trace.peer.phase && popped.open == trace.open
            && popped.sync == trace.sync && popped.base == trace.base && Transcript(popped) == Transcript(trace)
            && story.events != [] && story.events[0] == trace.peer.subscription.value.queue[0]
            && story.told == Transcript(trace)
            && StoryOf(popped) == story.(events := story.events[1..])
  {
    hide Messages;
  }

  // Queueing a message that is no event, ahead of what is coming.
  lemma InsertingIsOrdered(env: Environment, trace: Trace, message: Message, admitted: bool)
    requires trace.peer.session.Some? && trace.open && trace.peer.phase.Active?
    requires Ordered(trace) && !message.Event? && !message.Goodbye?
    ensures Ordered(trace.With(Queued(env, trace.peer, message, SessionAccounting, admitted)))
  {
    StoryOfQueued(env, trace, message, admitted);
    hide Opens, Listens, Lawful, Body, Queued, Messages;
    var after := trace.With(Queued(env, trace.peer, message, SessionAccounting, admitted));
    if after.open {
      InsertStory(StoryOf(trace), message, StoryOf(after));
      ListensIsOrdered(after);
    } else {
      ClosedIsOrdered(trace, after);
    }
  }

  // What publishing does to the story.
  lemma StoryOfPublished(env: Environment, trace: Trace, message: Message, revision: nat)
    requires trace.peer.subscription.Some?
    ensures var subscription := trace.peer.subscription.value;
            var after := trace.(peer := trace.peer.(subscription := Published(env, trace.peer.subscription, message)),
                                revision := revision);
            && after.peer.subscription.Some?
            && (if subscription.detached || |subscription.queue| >= env.subscriberQueue
                then StoryOf(after) == StoryOf(trace).(detached := true, revision := revision)
                else StoryOf(after) == StoryOf(trace).(events := subscription.queue + [message], revision := revision))
  {
    hide Messages;
  }

  lemma PublishingIsOrdered(env: Environment, trace: Trace, durable: bool)
    requires trace.open && Ordered(trace)
    ensures Ordered(Publishing(env, trace, durable))
  {
    var after := Publishing(env, trace, durable);
    PublishingKeepsTranscript(env, trace, durable);
    if trace.peer.session.Some? && (trace.peer.phase.Syncing? || trace.peer.phase.Active?) {
      PublishedStory(env, trace, durable);
    }
    hide Opens, Listens, Lawful, Body, Publishing, Transcript, StoryOf;
  }

  lemma PublishingKeepsTranscript(env: Environment, trace: Trace, durable: bool)
    ensures var after := Publishing(env, trace, durable);
            && Transcript(after) == Transcript(trace) && after.sync == trace.sync && after.base == trace.base
            && after.open == trace.open && after.peer.phase == trace.peer.phase
            && after.peer.session == trace.peer.session
            && (after.peer.subscription.Some? <==> trace.peer.subscription.Some?)
  {
    hide Messages;
  }

  lemma PublishedStory(env: Environment, trace: Trace, durable: bool)
    requires trace.peer.subscription.Some? && (Opens(StoryOf(trace)) || Listens(StoryOf(trace)))
    ensures var after := Publishing(env, trace, durable);
            && after.peer.subscription.Some?
            && (Opens(StoryOf(trace)) ==> Opens(StoryOf(after)))
            && (Listens(StoryOf(trace)) ==> Listens(StoryOf(after)))
  {
    var revision := if durable then trace.revision + 1 else trace.revision;
    var message := if durable then Event(revision, None) else RuntimeEvent(revision);
    StoryOfPublished(env, trace, message, revision);
    hide Opens, Listens, Published, Transcript;
    var before, story := StoryOf(trace), StoryOf(Publishing(env, trace, durable));
    if story.detached {
      DetachedStory(before, story);
    } else {
      PublishStory(before, message, story);
    }
  }

  // An accepted command: its event joins what is coming, behind its result.
  lemma AcceptingIsOrdered(env: Environment, trace: Trace, command: nat, admitted: bool)
    requires trace.peer.session.Some? && trace.open && trace.peer.phase.Active?
    requires Ordered(trace)
    ensures Ordered(Executing(env, trace, command, true, admitted))
  {
    var published, result := Publicized(env, trace, command), CommandResult(command);
    hide *;
    ListeningTrace(trace);
    AcceptedTrace(env, trace, command, admitted);
    PublicizedTrace(env, trace, command);
    AnsweredIsOrdered(env, trace, published, command, admitted);
  }

  lemma AnsweredIsOrdered(env: Environment, trace: Trace, published: Trace, command: nat, admitted: bool)
    requires trace.peer.session.Some? && trace.open && Ordered(trace)
    requires trace.peer.subscription.Some? && Listens(StoryOf(trace)) && StoryOf(trace).told == Transcript(trace)
    requires published.open && published.peer.phase.Active? && published.peer.session.Some?
    requires published.peer.subscription.Some? && Transcript(published) == Transcript(trace)
    requires published.sync == trace.sync && published.base == trace.base
    requires var story, event := StoryOf(trace), Event(trace.revision + 1, Some(command));
             && story.revision == trace.revision
             && (|| StoryOf(published) == story.(detached := true, revision := trace.revision + 1)
                 || (!story.detached
                     && StoryOf(published) == story.(events := story.events + [event], revision := trace.revision + 1)))
    ensures Ordered(published.With(Queued(env, published.peer, CommandResult(command), SessionAccounting, admitted)))
  {
    hide *;
    var queued := Queued(env, published.peer, CommandResult(command), SessionAccounting, admitted);
    var after := published.With(queued);
    StoryOfQueued(env, published, CommandResult(command), admitted);
    if queued.Some? {
      AcceptedStory(StoryOf(trace), command, StoryOf(published), StoryOf(after));
      ListensIsOrdered(after);
    } else {
      SameStorySameTranscript(published, after);
      ClosedFacts(published);
      ClosedIsOrdered(trace, after);
    }
  }

  lemma ListeningTrace(trace: Trace)
    requires trace.peer.session.Some? && trace.open && trace.peer.phase.Active? && Ordered(trace)
    ensures trace.peer.subscription.Some? && Listens(StoryOf(trace))
    ensures StoryOf(trace).told == Transcript(trace) && StoryOf(trace).revision == trace.revision
  {
    hide Listens, Lawful, Transcript;
  }

  lemma PublicizedTrace(env: Environment, trace: Trace, command: nat)
    requires trace.peer.subscription.Some?
    ensures var published, story := Publicized(env, trace, command), StoryOf(trace);
            var event := Event(story.revision + 1, Some(command));
            && published.open == trace.open && published.sync == trace.sync && published.base == trace.base
            && published.peer.phase == trace.peer.phase && published.peer.session == trace.peer.session
            && published.peer.subscription.Some? && Transcript(published) == Transcript(trace)
            && (|| StoryOf(published) == story.(detached := true, revision := story.revision + 1)
                || (!story.detached
                    && StoryOf(published) == story.(events := story.events + [event], revision := story.revision + 1)))
  {
    StoryOfPublished(env, trace, Event(trace.revision + 1, Some(command)), trace.revision + 1);
    hide Published, Messages;
  }

  lemma SameStorySameTranscript(left: Trace, right: Trace)
    requires left.peer.subscription.Some? && right.peer.subscription.Some? && StoryOf(left) == StoryOf(right)
    ensures Transcript(left) == Transcript(right) && left.sync == right.sync && left.base == right.base
  {
    hide Transcript;
  }

  lemma ClosedFacts(trace: Trace)
    ensures !trace.Closed().open && trace.Closed().peer == trace.peer
    ensures trace.Closed().sync == trace.sync && trace.Closed().base == trace.base
  {
  }

  // The trace between the publication of a command's event and its result.
  function Publicized(env: Environment, trace: Trace, command: nat): Trace {
    var event := Event(trace.revision + 1, Some(command));
    trace.(peer := trace.peer.(subscription := Published(env, trace.peer.subscription, event)),
           revision := trace.revision + 1)
  }

  lemma AcceptedTrace(env: Environment, trace: Trace, command: nat, admitted: bool)
    ensures var published := Publicized(env, trace, command);
            Executing(env, trace, command, true, admitted) ==
              published.With(Queued(env, published.peer, CommandResult(command), SessionAccounting, admitted))
  {
    hide Queued, Published;
  }

  // The result is told first, then the event is published: the same story as the other way
  // round, in which the law can be checked step by step.
  lemma AcceptedStory(story: Story, command: nat, published: Story, after: Story)
    requires Listens(story)
    requires var event := Event(story.revision + 1, Some(command));
             || published == story.(detached := true, revision := story.revision + 1)
             || (!story.detached && published == story.(events := story.events + [event], revision := story.revision + 1))
    requires after == published.(told := story.told + [CommandResult(command)])
    ensures Listens(after)
  {
    var result, event := CommandResult(command), Event(story.revision + 1, Some(command));
    var answered := story.(told := story.told + [result]);
    hide Opens, Listens;
    InsertStory(story, result, answered);
    if after.detached {
      DetachedStory(answered, after);
    } else {
      assert answered.told[|story.told|] == result;
      PublishStory(answered, event, after);
    }
  }

  lemma ExecutingIsOrdered(env: Environment, trace: Trace, command: nat, accepted: bool, admitted: bool)
    requires trace.peer.session.Some? && trace.open && trace.peer.phase.Active?
    requires Ordered(trace)
    ensures Ordered(Executing(env, trace, command, accepted, admitted))
  {
    if accepted {
      hide Ordered, Executing;
      AcceptingIsOrdered(env, trace, command, admitted);
    } else {
      hide Ordered, Queued;
      InsertingIsOrdered(env, trace, CommandResult(command), admitted);
      assert trace.(peer := trace.peer, revision := trace.revision) == trace;
    }
  }

  lemma ExecutingNextIsOrdered(env: Environment, trace: Trace, accepted: bool, admitted: bool)
    requires trace.peer.session.Some? && trace.open && trace.peer.phase.Active?
    requires Ordered(trace)
    ensures Ordered(ExecutingNext(env, trace, accepted, admitted))
  {
    hide Executing, Ordered;
    ExecutingIsOrdered(env, trace, trace.executed, accepted, admitted);
    OrderIgnoresTheCount(Executing(env, trace, trace.executed, accepted, admitted), trace.executed + 1);
  }

  lemma OrderIgnoresTheCount(trace: Trace, executed: nat)
    requires Ordered(trace)
    ensures Ordered(trace.(executed := executed))
  {
    var after := trace.(executed := executed);
    assert Transcript(after) == Transcript(trace);
    hide Opens, Listens, Lawful, Body, Transcript;
    if trace.peer.subscription.Some? {
      assert StoryOf(after) == StoryOf(trace);
    }
  }

  // ----- opening a session -----

  lemma EstablishingIsOrdered(env: Environment, trace: Trace, sync: Sync, studio: bool, admitted: bool)
    requires trace.open && Transcript(trace) == [] && trace.peer.session.None? && trace.peer.phase.AwaitHandshake?
    ensures Ordered(Establishing(env, trace, sync, studio, admitted))
  {
    var after := Establishing(env, trace, sync, studio, admitted);
    if after.open {
      EstablishedStory(env, trace, sync, studio, admitted);
      hide Establishing;
      OpeningIsLawful(after.sync, after.base, after.revision);
      OpenedStory(StoryOf(after));
      hide Opens, StoryOf;
      OpensIsOrdered(after);
    }
  }

  lemma EstablishedStory(env: Environment, trace: Trace, sync: Sync, studio: bool, admitted: bool)
    requires trace.open && Transcript(trace) == []
    requires Establishing(env, trace, sync, studio, admitted).open
    ensures var after := Establishing(env, trace, sync, studio, admitted);
            && after.peer.session.Some? && after.peer.subscription.Some? && after.peer.phase.Syncing?
            && StoryOf(after) == Story([HandshakeResponse(true)], 0, after.sync, [], false, after.sync, after.base, after.revision)
            && (|| (after.sync == [Snapshot(after.base)] && after.base == after.revision)
                || (after.base <= after.revision && after.sync == EventsAfter(after.base, after.revision)))
  {
    var after := Establishing(env, trace, sync, studio, admitted);
    var prepared := trace.peer.(initialSync := after.sync, session := Some(NEW_SESSION),
      subscription := Some(Subscription([], false)), lossy := trace.peer.transport.Raw? && studio);
    assert after.peer == Queued(env, prepared, HandshakeResponse(true), SessionAccounting, admitted).value.(phase := Syncing);
    QueuedFacts(env, prepared, HandshakeResponse(true), SessionAccounting, admitted);
    hide Queued, EventsAfter;
  }

  lemma OpenedStory(story: Story)
    requires story.told == [HandshakeResponse(true)] && story.shown == 0 && story.rest == story.sync && story.events == []
    requires Lawful(story.sync, story.base, Opening(story.sync))
    requires CaughtUp(story.base, Opening(story.sync), story.revision)
    ensures Opens(story)
  {
    hide Lawful, CaughtUp;
    assert story.Whole() == Opening(story.sync);
  }

  lemma RefusingIsOrdered(env: Environment, trace: Trace, message: Message)
    requires trace.open && Transcript(trace) == [] && trace.peer.session.None? && trace.peer.phase.AwaitHandshake?
    ensures Ordered(Refusing(env, trace, message))
  {
    if Queued(env, trace.peer, message, RawAccounting, false).Some? {
      QueuedFacts(env, trace.peer, message, RawAccounting, false);
      hide Queued;
    }
  }

  // ----- writing -----

  ghost predicate OnlyWrote(before: PeerState, after: PeerState, delivered: seq<Message>) {
    && Messages(before.outbound) == delivered + Messages(after.outbound)
    && after == before.(outbound := after.outbound, session := after.session,
                        handshakeWritten := after.handshakeWritten, meter := after.meter, status := after.status)
    && (after.session.Some? <==> before.session.Some?)
  }

  lemma FinishOnlyWrote(peer: PeerState)
    requires peer.outbound != []
    ensures OnlyWrote(peer, FinishOutbound(peer).peer, [peer.outbound[0].message])
  {
    assert Messages(peer.outbound) == [peer.outbound[0].message] + Messages(peer.outbound[1..]);
  }

  lemma SlotPassOnlyWrote(peer: PeerState, first: WriteAnswer, second: WriteAnswer)
    requires WriteReady(peer)
    requires peer.meter.Started() || peer.status.Started() || peer.outbound == []
    ensures var pass := WriteRaw(peer, first, second); OnlyWrote(peer, pass.peer, pass.delivered)
  {
    hide WriteRaw, Messages, WriteReady, LineShaped;
    SlotPassOnlyTouchesSlots(peer, first, second);
    SlotPassDeliversNothing(peer, first, second);
    assert [] + Messages(peer.outbound) == Messages(peer.outbound);
  }

  lemma SlotPassDeliversNothing(peer: PeerState, first: WriteAnswer, second: WriteAnswer)
    requires WriteReady(peer)
    requires peer.meter.Started() || peer.status.Started() || peer.outbound == []
    ensures WriteRaw(peer, first, second).delivered == []
  {
    hide WriteOnce, WriteSlot, LineShaped, FinishOutbound;
  }

  lemma FrontPassOnlyWrote(peer: PeerState, first: WriteAnswer, second: WriteAnswer)
    requires WriteReady(peer) && !peer.meter.Started() && !peer.status.Started() && peer.outbound != []
    ensures var pass := WriteRaw(peer, first, second); OnlyWrote(peer, pass.peer, pass.delivered)
  {
    var record := peer.outbound[0].(write := WriteOnce(peer.outbound[0].write, first).write);
    FinishOnlyWrote(peer);
    RewrittenFrontOnlyWrote(peer, record);
    hide WriteOnce, WriteSlot, LineShaped, FinishOutbound, OnlyWrote;
  }

  lemma RewrittenFrontOnlyWrote(peer: PeerState, record: Outbound)
    requires peer.outbound != [] && record.message == peer.outbound[0].message
    ensures OnlyWrote(peer, peer.(outbound := [record] + peer.outbound[1..]), [])
  {
    assert Messages([record] + peer.outbound[1..]) == Messages(peer.outbound);
  }

  lemma RawPassOnlyWrote(peer: PeerState, first: WriteAnswer, second: WriteAnswer)
    requires WriteReady(peer)
    ensures var pass := WriteRaw(peer, first, second); OnlyWrote(peer, pass.peer, pass.delivered)
  {
    hide WriteRaw, OnlyWrote;
    if peer.meter.Started() || peer.status.Started() || peer.outbound == [] {
      SlotPassOnlyWrote(peer, first, second);
    } else {
      FrontPassOnlyWrote(peer, first, second);
    }
  }

  lemma WebPassOnlyWrote(peer: PeerState, admitted: bool, web: WebAnswer)
    ensures var pass := WriteWeb(peer, admitted, web); OnlyWrote(peer, pass.peer, pass.delivered)
  {
    if peer.outbound != [] && peer.outbound[0].channelSent {
      SentPassOnlyWrote(peer, admitted, web);
    } else {
      hide WriteWeb, OnlyWrote;
      UnsentPassOnlyWrote(peer, admitted, web);
    }
  }

  lemma SentPassOnlyWrote(peer: PeerState, admitted: bool, web: WebAnswer)
    requires peer.outbound != [] && peer.outbound[0].channelSent
    ensures var pass := WriteWeb(peer, admitted, web); OnlyWrote(peer, pass.peer, pass.delivered)
  {
    FinishOnlyWrote(peer);
    RewrittenFrontOnlyWrote(peer, peer.outbound[0]);
    assert peer.(outbound := [peer.outbound[0]] + peer.outbound[1..]) == peer;
    hide FinishOutbound, OnlyWrote;
  }

  lemma UnsentPassOnlyWrote(peer: PeerState, admitted: bool, web: WebAnswer)
    requires peer.outbound == [] || !peer.outbound[0].channelSent
    ensures var pass := WriteWeb(peer, admitted, web); OnlyWrote(peer, pass.peer, pass.delivered)
  {
    hide FinishOutbound, Messages;
    var pass := WriteWeb(peer, admitted, web);
    if peer.outbound != [] {
      var record := pass.peer.outbound[0];
      assert pass.peer == peer.(session := pass.peer.session, outbound := [record] + peer.outbound[1..]);
      RewrittenFrontOnlyWrote(peer, record);
    }
  }

  function Written(trace: Trace, pass: Pass): Trace {
    trace.(peer := pass.peer, wire := trace.wire + pass.bytes, records := trace.records + pass.records,
           delivered := trace.delivered + pass.delivered)
  }

  // A pass moves at most the front of the queue to the delivered messages.
  lemma PassKeepsTranscript(trace: Trace, first: WriteAnswer, second: WriteAnswer, admitted: bool, web: WebAnswer)
    requires WriteReady(trace.peer)
    ensures var after := Writing(trace, first, second, admitted, web);
            && Transcript(after) == Transcript(trace)
            && trace.delivered <= after.delivered
            && after.sync == trace.sync && after.base == trace.base && after.revision == trace.revision
            && after.executed == trace.executed
            && after.peer.phase == trace.peer.phase
            && after.peer.subscription == trace.peer.subscription
            && after.peer.initialSync == trace.peer.initialSync
            && (after.peer.session.Some? <==> trace.peer.session.Some?)
  {
    var pass := if trace.peer.transport.Raw? then WriteRaw(trace.peer, first, second)
                else WriteWeb(trace.peer, admitted, web);
    RawPassOnlyWrote(trace.peer, first, second);
    WebPassOnlyWrote(trace.peer, admitted, web);
    hide WriteRaw, WriteWeb, OnlyWrote, Transcript;
    WrittenTranscript(trace, pass);
    var written := Written(trace, pass);
    assert Writing(trace, first, second, admitted, web) == written
           || Writing(trace, first, second, admitted, web) == written.Closed();
    ClosedTranscript(written);
  }

  lemma ClosedTranscript(trace: Trace)
    ensures Transcript(trace.Closed()) == Transcript(trace)
  {
  }

  lemma WrittenTranscript(trace: Trace, pass: Pass)
    requires OnlyWrote(trace.peer, pass.peer, pass.delivered)
    ensures var after := Written(trace, pass);
            && Transcript(after) == Transcript(trace)
            && trace.delivered <= after.delivered
            && after.peer.phase == trace.peer.phase
            && after.peer.subscription == trace.peer.subscription
            && after.peer.initialSync == trace.peer.initialSync
            && (after.peer.session.Some? <==> trace.peer.session.Some?)
  {
    var before, after := Messages(trace.peer.outbound), Messages(pass.peer.outbound);
    hide Messages;
    assert trace.delivered + (pass.delivered + after) == (trace.delivered + pass.delivered) + after;
  }

  lemma WritingIsOrdered(trace: Trace, first: WriteAnswer, second: WriteAnswer, admitted: bool, web: WebAnswer)
    requires WriteReady(trace.peer) && Ordered(trace) && trace.open
    ensures Ordered(Writing(trace, first, second, admitted, web))
  {
    PassKeepsTranscript(trace, first, second, admitted, web);
    var after := Writing(trace, first, second, admitted, web);
    assert |after.delivered| <= |Transcript(after)|;
    hide Writing, Lawful, Transcript, Body, Opens, Listens;
    if trace.peer.subscription.Some? {
      ShowStory(StoryOf(trace), StoryOf(after));
    }
  }

  // ----- shutting down -----

  // Everything behind the record that preserving removes is a command result.
  lemma OnlyResultsBehind(env: Environment, peer: PeerState)
    requires Shaped(env, peer) && Dropped(peer).Some?
    ensures forall i :: Dropped(peer).value < i < |peer.outbound| ==> peer.outbound[i].message.CommandResult?
  {
    forall i | Dropped(peer).value < i < |peer.outbound| ensures peer.outbound[i].message.CommandResult? {
      ShapedAt(env, peer, i);
      assert !Removable(peer.outbound[i]);
    }
  }

  lemma CutMessages(trace: Trace, kept: nat)
    requires kept <= |trace.peer.outbound|
    ensures trace.delivered + Messages(trace.peer.outbound[..kept]) == Transcript(trace)[..|trace.delivered| + kept]
  {
  }

  lemma WithoutMessages(trace: Trace, index: nat)
    requires index < |trace.peer.outbound|
    requires forall i :: index < i < |trace.peer.outbound| ==> trace.peer.outbound[i].message.CommandResult?
    ensures var told, at := Transcript(trace), |trace.delivered| + index;
            && at < |told|
            && Without(told, at) == trace.delivered + Messages(Without(trace.peer.outbound, index))
            && (forall i :: at < i < |told| ==> told[i].CommandResult?)
  {
  }

  lemma TrimmedIsLawful(env: Environment, trace: Trace, replace: bool)
    requires Shaped(env, trace.peer) && Aligned(trace.peer)
    requires trace.open && trace.peer.session.Some? && Ordered(trace)
    requires trace.peer.phase.Syncing? || trace.peer.phase.Active?
    ensures Lawful(trace.sync, trace.base, trace.delivered + Messages(Trimmed(trace.peer, replace).outbound))
  {
    hide *;
    LivelyStory(trace);
    TrimmedContents(trace.peer, replace);
    var outbound := trace.peer.outbound;
    if replace {
      CutIsLawful(trace, Retained(trace.peer));
    } else if Dropped(trace.peer).Some? {
      OnlyResultsBehind(env, trace.peer);
      DropIsLawful(trace, Dropped(trace.peer).value);
    } else {
      CutIsLawful(trace, |outbound|);
      assert outbound[..|outbound|] == outbound;
    }
  }

  lemma LivelyStory(trace: Trace)
    requires trace.open && trace.peer.session.Some? && Ordered(trace)
    requires trace.peer.phase.Syncing? || trace.peer.phase.Active?
    ensures trace.peer.subscription.Some? && (Opens(StoryOf(trace)) || Listens(StoryOf(trace)))
  {
    hide Opens, Listens, Lawful;
  }

  lemma CutIsLawful(trace: Trace, kept: nat)
    requires trace.peer.subscription.Some? && (Opens(StoryOf(trace)) || Listens(StoryOf(trace)))
    requires kept <= |trace.peer.outbound|
    ensures Lawful(trace.sync, trace.base, trace.delivered + Messages(trace.peer.outbound[..kept]))
  {
    hide Lawful, Coherent, Messages;
    CutMessages(trace, kept);
    CutStory(StoryOf(trace), |trace.delivered| + kept);
  }

  lemma DropIsLawful(trace: Trace, index: nat)
    requires trace.peer.subscription.Some? && (Opens(StoryOf(trace)) || Listens(StoryOf(trace)))
    requires index < |trace.peer.outbound|
    requires forall i :: index < i < |trace.peer.outbound| ==> trace.peer.outbound[i].message.CommandResult?
    ensures Lawful(trace.sync, trace.base, trace.delivered + Messages(Without(trace.peer.outbound, index)))
  {
    hide Lawful, Opens, Listens, Messages;
    WithoutMessages(trace, index);
    DropStory(StoryOf(trace), |trace.delivered| + index);
  }

  lemma ShuttingDownIsOrdered(env: Environment, trace: Trace, replace: bool, admitted: bool)
    requires Shaped(env, trace.peer) && Aligned(trace.peer) && trace.open && Ordered(trace)
    requires trace.peer.phase.Closing? ==> trace.peer.session.None?
    ensures Ordered(ShuttingDown(env, trace, replace, admitted))
  {
    if trace.peer.session.None? || !trace.peer.handshakeWritten {
      ClosedTranscript(trace);
      hide Lawful, Lively, Body, Transcript;
    } else {
      var trimmed := Trimmed(trace.peer, replace);
      TrimmedContents(trace.peer, replace);
      TrimmedIsLawful(env, trace, replace);
      hide Shaped, Aligned, Trimmed, Lawful, Ordered;
      LeavingIsOrdered(env, trace, replace, admitted, trimmed);
    }
  }

  lemma LeavingIsOrdered(env: Environment, trace: Trace, replace: bool, admitted: bool, trimmed: PeerState)
    requires trace.peer.session.Some? && trace.peer.handshakeWritten
    requires trimmed == Trimmed(trace.peer, replace) && trimmed.session.Some?
    requires Lawful(trace.sync, trace.base, trace.delivered + Messages(trimmed.outbound))
    ensures Ordered(ShuttingDown(env, trace, replace, admitted))
  {
    var kept := trace.delivered + Messages(trimmed.outbound);
    assert Goodbye !in kept;
    hide ShuttingDown, Trimmed, Body, Lawful, Messages, Transcript, Lively;
    GoodbyeKeepsBody(kept);
    LeavingAddsGoodbye(env, trace, replace, admitted, trimmed);
  }

  lemma LeavingAddsGoodbye(env: Environment, trace: Trace, replace: bool, admitted: bool, trimmed: PeerState)
    requires trace.peer.session.Some? && trace.peer.handshakeWritten
    requires trimmed == Trimmed(trace.peer, replace) && trimmed.session.Some?
    ensures var after := ShuttingDown(env, trace, replace, admitted);
            var kept := trace.delivered + Messages(trimmed.outbound);
            && (Transcript(after) == kept || Transcript(after) == kept + [Goodbye])
            && after.peer.phase.Closing? && after.peer.session.Some?
            && after.sync == trace.sync && after.base == trace.base && after.executed == trace.executed
  {
    LeaveTaking(env, trimmed, admitted);
    hide Queued, Trimmed, Messages;
    var kept := trace.delivered + Messages(trimmed.outbound);
    assert trace.delivered + (Messages(trimmed.outbound) + [Goodbye]) == kept + [Goodbye];
  }

  // At most a goodbye joins the trimmed queue.
  lemma LeaveTaking(env: Environment, trimmed: PeerState, admitted: bool)
    requires trimmed.session.Some?
    ensures forall accounting ::
              var queued := Queued(env, trimmed, Goodbye, accounting, admitted);
              queued.Some? ==> queued.value.session.Some?
                               && Messages(queued.value.outbound) == Messages(trimmed.outbound) + [Goodbye]
  {
    forall accounting | Queued(env, trimmed, Goodbye, accounting, admitted).Some?
      ensures var queued := Queued(env, trimmed, Goodbye, accounting, admitted).value;
              queued.session.Some? && Messages(queued.outbound) == Messages(trimmed.outbound) + [Goodbye]
    {
      QueuedFacts(env, trimmed, Goodbye, accounting, admitted);
    }
  }

  // ----- every step, every run -----

  // Steps that move no message.
  lemma QuietStepIsOrdered(env: Environment, trace: Trace, step: Step)
    requires WriteReady(trace.peer) && trace.open && Ordered(trace)
    requires step.BecomeActive? || step.ReplaceMeter? || step.ReplaceStatus? || step.Close?
    ensures Ordered(Next(env, trace, step))
  {
    hide Lawful, LineShaped, Opens, Listens, Body, WriteReady;
    var after := Next(env, trace, step);
    assert Transcript(after) == Transcript(trace);
    if trace.peer.subscription.Some? {
      assert StoryOf(after) == StoryOf(trace);
      if step.BecomeActive? && after.peer.phase.Active? && !trace.peer.phase.Active? && trace.peer.session.Some? {
        assert |Transcript(trace)| == |trace.delivered|;
        hide Transcript;
        ListenStory(StoryOf(trace));
      }
    }
  }

  lemma LiveStepIsOrdered(env: Environment, trace: Trace, step: Step)
    requires WriteReady(trace.peer) && trace.open && Ordered(trace)
    requires trace.peer.phase.Syncing? || trace.peer.phase.Active? ==> trace.peer.session.Some?
    requires step.Execute? || step.Answer? || step.Publish? || step.Feed? || step.Drain?
    ensures Ordered(Next(env, trace, step))
  {
    hide Ordered, FedOne, Queued, ExecutingNext, Publishing, Draining, WriteReady;
    var peer := trace.peer;
    match step
    case Execute(accepted, admitted) =>
      if peer.phase.Active? { ExecutingNextIsOrdered(env, trace, accepted, admitted); }
    case Answer(tag, admitted) =>
      if peer.phase.Active? { InsertingIsOrdered(env, trace, Reply(tag), admitted); }
    case Publish(durable) => PublishingIsOrdered(env, trace, durable);
    case Feed(admitted) =>
      if peer.phase.Syncing? && peer.initialSync != [] { FeedingIsOrdered(env, trace, admitted); }
    case Drain(admitted) =>
      if peer.phase.Active? { DrainingIsOrdered(env, trace, admitted); }
  }

  lemma EdgeStepIsOrdered(env: Environment, trace: Trace, step: Step)
    requires Shaped(env, trace.peer) && Aligned(trace.peer) && WriteReady(trace.peer) && trace.open && Ordered(trace)
    requires trace.peer.phase.AwaitHandshake? ==> trace.peer.session.None? && Transcript(trace) == []
    requires step.Refuse? || step.Establish? || step.Write? || step.Shutdown?
    ensures Ordered(Next(env, trace, step))
  {
    hide Ordered, Refusing, Establishing, Writing, ShuttingDown, WriteReady, Shaped, Aligned, Transcript;
    var peer := trace.peer;
    match step
    case Refuse(message) =>
      if peer.phase.AwaitHandshake? { RefusingIsOrdered(env, trace, message); }
    case Establish(sync, studio, admitted) =>
      if peer.phase.AwaitHandshake? { EstablishingIsOrdered(env, trace, sync, studio, admitted); }
    case Write(first, second, admitted, web) => WritingIsOrdered(trace, first, second, admitted, web);
    case Shutdown(replace, admitted) =>
      if !(peer.phase.Closing? && peer.session.Some?) { ShuttingDownIsOrdered(env, trace, replace, admitted); }
  }

  lemma NextIsOrdered(env: Environment, trace: Trace, step: Step)
    requires Sound(env, trace) && WriteReady(trace.peer)
    requires Ordered(trace)
    ensures Ordered(Next(env, trace, step))
  {
    if trace.open {
      assert trace.peer.phase.AwaitHandshake? ==> trace.peer.session.None? && Transcript(trace) == [];
      assert trace.peer.phase.Syncing? || trace.peer.phase.Active? ==> trace.peer.session.Some?;
      hide Ordered, Next, WriteReady, Shaped, Aligned, Transcript;
      if step.Execute? || step.Answer? || step.Publish? || step.Feed? || step.Drain? {
        LiveStepIsOrdered(env, trace, step);
      } else if step.Refuse? || step.Establish? || step.Write? || step.Shutdown? {
        EdgeStepIsOrdered(env, trace, step);
      } else {
        QuietStepIsOrdered(env, trace, step);
      }
    }
  }

  lemma {:induction false} EveryRunIsOrdered(env: Environment, transport: Transport, revision: nat, steps: seq<Step>)
    requires EncodesLines(env)
    ensures Ordered(RunOf(env, transport, revision, steps))
  {
    if steps != [] {
      var before := RunOf(env, transport, revision, steps[..|steps| - 1]);
      EveryRunIsOrdered(env, transport, revision, steps[..|steps| - 1]);
      hide Ordered, Sound, EncodesLines, Next, WriteReady;
      SoundIsWriteReady(env, before);
      NextIsOrdered(env, before, steps[|steps| - 1]);
    }
  }

  // Whatever happens to it, a peer with a session has been told the handshake response, the
  // whole initial sync and then the rest; the durable revisions among it follow the snapshot
  // or the resume cursor without a gap or a repetition; the result of each of its own commands
  // came before that command's event; a goodbye, if any, came last. A connection without a
  // session got one message at most.
  lemma EveryRunDelivers(env: Environment, transport: Transport, revision: nat, steps: seq<Step>)
    requires EncodesLines(env)
    ensures var trace := RunOf(env, transport, revision, steps);
            var said := Body(trace.delivered);
            if trace.peer.session.None? then |trace.delivered| <= 1
            else
              && WholeSync(trace.sync, trace.base)
              && (said <= Opening(trace.sync) || Opening(trace.sync) <= said)
              && Contiguous(Durables(said), trace.base)
              && ResultsFirst(said)
              && Goodbye !in said
  {
    EveryRunIsOrdered(env, transport, revision, steps);
    var trace := RunOf(env, transport, revision, steps);
    hide RunOf, Lively, Messages, Durables, Contiguous, ResultsFirst, WholeSync, Body;
    if trace.peer.session.Some? {
      ShownIsLawful(trace.sync, trace.base, Transcript(trace), trace.delivered);
    }
  }

  // While an active peer keeps up with its subscription, nothing committed is missing: what it
  // was told, what is queued for it and what waits in its subscription reach the revision of
  // the control plane exactly.
  lemma NothingIsMissing(env: Environment, transport: Transport, revision: nat, steps: seq<Step>)
    requires EncodesLines(env)
    ensures var trace := RunOf(env, transport, revision, steps);
            trace.open && trace.peer.phase.Active? ==>
              && trace.peer.subscription.Some?
              && (!trace.peer.subscription.value.detached ==>
                    var revisions := Durables(Transcript(trace) + trace.peer.subscription.value.queue);
                    Contiguous(revisions, trace.base) && trace.base + |revisions| == trace.revision)
  {
    EveryRunIsOrdered(env, transport, revision, steps);
    var trace := RunOf(env, transport, revision, steps);
    assert trace.peer.phase.Active? ==> trace.peer.session.Some?;
    hide RunOf, Sound, Durables, Contiguous, Body, Messages, Listens, Opens, Lawful, Transcript;
    if trace.open && trace.peer.phase.Active? && !trace.peer.subscription.value.detached {
      ListensReaches(StoryOf(trace));
    }
  }

  lemma ListensReaches(story: Story)
    requires Listens(story) && !story.detached
    ensures Contiguous(Durables(story.told + story.events), story.base)
    ensures story.base + |Durables(story.told + story.events)| == story.revision
  {
    hide Durables, Contiguous;
    assert story.rest + story.events == story.events;
  }
}
