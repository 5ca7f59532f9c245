// What a peer may be told, in which order: the handshake response, the whole initial sync, then
// everything else, with contiguous durable revisions and every result before its own event.
module Delivery {
  import opened Basics
  import opened Peer
  import opened PeerRun

  // ----- lists of messages -----

  function Durables(messages: seq<Message>): (revisions: seq<nat>) {
    if messages == [] then []
    else
      var front := Durables(messages[..|messages| - 1]);
      var last := messages[|messages| - 1];
      if last.Event? then front + [last.revision] else front
  }

  predicate Contiguous(revisions: seq<nat>, base: nat) {
    forall i :: 0 <= i < |revisions| ==> revisions[i] == base + 1 + i
  }

  // An event caused by one of this peer's own commands comes after that command's result.
  predicate ResultsFirst(messages: seq<Message>) {
    forall j :: 0 <= j < |messages| && messages[j].Event? && messages[j].origin.Some? ==>
      CommandResult(messages[j].origin.value) in messages[..j]
  }

  lemma {:induction false} DurablesAppend(left: seq<Message>, right: seq<Message>)
    ensures Durables(left + right) == Durables(left) + Durables(right)
  {
    var whole := left + right;
    if right == [] {
      assert whole == left;
    } else {
      var front, last := right[..|right| - 1], right[|right| - 1];
      DurablesAppend(left, front);
      assert whole[..|whole| - 1] == left + front && whole[|whole| - 1] == last;
    }
  }

  lemma DurablesOfOne(message: Message)
    ensures Durables([message]) == if message.Event? then [message.revision] else []
  {
    assert [message][..0] == [];
    assert Durables([message][..0]) == [];
  }

  lemma {:induction false} NoDurables(messages: seq<Message>)
    requires forall i :: 0 <= i < |messages| ==> !messages[i].Event?
    ensures Durables(messages) == []
  {
    if messages != [] {
      NoDurables(messages[..|messages| - 1]);
    }
  }

  lemma ResultsFirstPrefix(whole: seq<Message>, count: nat)
    requires count <= |whole| && ResultsFirst(whole)
    ensures ResultsFirst(whole[..count])
  {
    forall j | 0 <= j < count && whole[..count][j].Event? && whole[..count][j].origin.Some?
      ensures CommandResult(whole[..count][j].origin.value) in whole[..count][..j]
    {
      assert whole[..count][..j] == whole[..j];
      assert whole[j].Event?;
    }
  }

  lemma ResultsFirstAppend(messages: seq<Message>, last: Message)
    requires ResultsFirst(messages)
    requires last.Event? && last.origin.Some? ==> CommandResult(last.origin.value) in messages
    ensures ResultsFirst(messages + [last])
  {
    var whole := messages + [last];
    forall j | 0 <= j < |whole| && whole[j].Event? && whole[j].origin.Some?
      ensures CommandResult(whole[j].origin.value) in whole[..j]
    {
      assert whole[..j] == messages[..j];
    }
  }

  lemma ResultsFirstInsert(left: seq<Message>, middle: Message, right: seq<Message>)
    requires ResultsFirst(left + right) && !middle.Event?
    ensures ResultsFirst(left + [middle] + right)
  {
    var before, whole := left + right, left + [middle] + right;
    forall j | 0 <= j < |whole| && whole[j].Event? && whole[j].origin.Some?
      ensures CommandResult(whole[j].origin.value) in whole[..j]
    {
      var i := if j < |left| then j else j - 1;
      assert before[i] == whole[j];
      var result := CommandResult(whole[j].origin.value);
      assert result in before[..i];
      var k :| 0 <= k < i && before[k] == result;
      assert whole[..j][if k < |left| then k else k + 1] == result;
    }
  }

  // Dropping a message with no events behind it.
  lemma ResultsFirstDrop(left: seq<Message>, right: seq<Message>)
    requires ResultsFirst(left) && forall i :: 0 <= i < |right| ==> !right[i].Event?
    ensures ResultsFirst(left + right)
  {
    var whole := left + right;
    forall j | 0 <= j < |whole| && whole[j].Event? && whole[j].origin.Some?
      ensures CommandResult(whole[j].origin.value) in whole[..j]
    {
      assert whole[..j] == left[..j];
    }
  }

  // ----- the law -----

  function Opening(sync: seq<Message>): (opening: seq<Message>) { [HandshakeResponse(true)] + sync }

  // A snapshot, or every retained event after the resume cursor.
  ghost predicate WholeSync(sync: seq<Message>, base: nat) {
    sync == [Snapshot(base)] || sync == EventsAfter(base, base + |sync|)
  }

  // The opening comes first, whole once anything else follows.
  ghost predicate OpensWith(sync: seq<Message>, messages: seq<Message>) {
    messages <= Opening(sync) || Opening(sync) <= messages
  }

  ghost predicate Lawful(sync: seq<Message>, base: nat, messages: seq<Message>) {
    && WholeSync(sync, base)
    && OpensWith(sync, messages)
    && Contiguous(Durables(messages), base)
    && ResultsFirst(messages)
    && Goodbye !in messages
  }

  // The durable revisions end at the revision of the control plane.
  ghost predicate CaughtUp(base: nat, messages: seq<Message>, revision: nat) {
    base + |Durables(messages)| == revision
  }

  // The goodbye of a shutdown is the last message, if it is there at all.
  function Body(messages: seq<Message>): (body: seq<Message>) {
    if messages != [] && messages[|messages| - 1] == Goodbye then messages[..|messages| - 1] else messages
  }

  lemma ContiguousPrefix(whole: seq<Message>, count: nat, base: nat)
    requires count <= |whole| && Contiguous(Durables(whole), base)
    ensures Contiguous(Durables(whole[..count]), base)
  {
    assert whole == whole[..count] + whole[count..];
    DurablesAppend(whole[..count], whole[count..]);
    hide Durables;
    var revisions := Durables(whole[..count]);
    forall i | 0 <= i < |revisions| ensures revisions[i] == base + 1 + i {
      assert revisions[i] == Durables(whole)[i];
    }
  }

  lemma OpensWithPrefix(sync: seq<Message>, whole: seq<Message>, count: nat)
    requires count <= |whole| && OpensWith(sync, whole)
    ensures OpensWith(sync, whole[..count])
  {
  }

  lemma LawfulPrefix(sync: seq<Message>, base: nat, whole: seq<Message>, count: nat)
    requires count <= |whole| && Lawful(sync, base, whole)
    ensures Lawful(sync, base, whole[..count])
  {
    hide WholeSync, OpensWith, Contiguous, Durables, ResultsFirst;
    OpensWithPrefix(sync, whole, count);
    ContiguousPrefix(whole, count, base);
    ResultsFirstPrefix(whole, count);
  }

  // A message that is no event joins in front of others.
  lemma InsertKeepsLawful(sync: seq<Message>, base: nat, left: seq<Message>, message: Message, right: seq<Message>)
    requires Lawful(sync, base, left + right) && Opening(sync) <= left
    requires !message.Event? && !message.Goodbye?
    ensures Lawful(sync, base, left + [message] + right)
    ensures Durables(left + [message] + right) == Durables(left + right)
  {
    DurablesAppend(left, right);
    DurablesAppend(left + [message], right);
    DurablesAppend(left, [message]);
    DurablesOfOne(message);
    hide WholeSync, Contiguous, Durables, ResultsFirst;
    assert Durables(left) + [] == Durables(left);
    ResultsFirstInsert(left, message, right);
    OpensLonger(sync, left, [message] + right);
    assert left + ([message] + right) == left + [message] + right;
  }

  lemma OpensLonger(sync: seq<Message>, left: seq<Message>, right: seq<Message>)
    requires Opening(sync) <= left
    ensures OpensWith(sync, left + right)
  {
  }

  // A published message joins at the end.
  lemma PublishKeepsLawful(sync: seq<Message>, base: nat, all: seq<Message>, message: Message)
    requires Lawful(sync, base, all) && Opening(sync) <= all && !message.Goodbye?
    requires message.Event? ==> message.revision == base + |Durables(all)| + 1
    requires message.Event? && message.origin.Some? ==> CommandResult(message.origin.value) in all
    ensures Lawful(sync, base, all + [message])
    ensures |Durables(all + [message])| == |Durables(all)| + (if message.Event? then 1 else 0)
  {
    DurablesAppend(all, [message]);
    DurablesOfOne(message);
    hide WholeSync, Durables, ResultsFirst;
    ResultsFirstAppend(all, message);
    OpensLonger(sync, all, [message]);
    hide OpensWith;
  }

  // Taking out one message behind which only results remain.
  lemma DropKeepsLawful(sync: seq<Message>, base: nat, whole: seq<Message>, index: nat)
    requires Lawful(sync, base, whole) && Opening(sync) <= whole && |Opening(sync)| <= index < |whole|
    requires forall i :: index < i < |whole| ==> whole[i].CommandResult?
    ensures Lawful(sync, base, Without(whole, index))
  {
    var left, right := whole[..index], whole[index + 1..];
    LawfulPrefix(sync, base, whole, index);
    assert forall i :: 0 <= i < |right| ==> right[i] == whole[index + 1 + i];
    NoDurables(right);
    DurablesAppend(left, right);
    ResultsFirstDrop(left, right);
    OpensLonger(sync, left, right);
    hide WholeSync, OpensWith, Contiguous, Durables, ResultsFirst;
    assert Durables(left) + [] == Durables(left);
  }

  lemma NoResultInOpening(sync: seq<Message>, base: nat)
    requires WholeSync(sync, base)
    ensures forall i :: 0 <= i < |Opening(sync)| ==> !Opening(sync)[i].CommandResult?
  {
  }

  lemma {:induction false} DurablesOfSync(events: seq<Message>, cursor: nat)
    requires forall i :: 0 <= i < |events| ==> events[i] == Event(cursor + 1 + i, None)
    ensures |Durables(events)| == |events| && Contiguous(Durables(events), cursor)
  {
    if events != [] {
      DurablesOfSync(events[..|events| - 1], cursor);
    }
  }

  // A session opens with a snapshot of the control plane, or with every event after the cursor.
  lemma OpeningIsLawful(sync: seq<Message>, base: nat, revision: nat)
    requires || (sync == [Snapshot(base)] && base == revision)
             || (base <= revision && sync == EventsAfter(base, revision))
    ensures Lawful(sync, base, Opening(sync)) && CaughtUp(base, Opening(sync), revision)
  {
    DurablesAppend([HandshakeResponse(true)], sync);
    DurablesOfOne(HandshakeResponse(true));
    if sync == [Snapshot(base)] {
      DurablesOfOne(Snapshot(base));
    } else {
      DurablesOfSync(sync, base);
    }
    hide Durables;
    assert ResultsFirst(Opening(sync));
  }

  // ----- a conversation -----

  // Everything told so far, the first `shown` of it delivered; the rest of the sync; the events
  // that wait in the subscription; what was promised at the handshake; the durable revision.
  datatype Story = Story(
    told: seq<Message>,
    shown: nat,
    rest: seq<Message>,
    events: seq<Message>,
    detached: bool,
    sync: seq<Message>,
    base: nat,
    revision: nat)
  {
    function Whole(): (messages: seq<Message>) { told + (rest + events) }
  }

  // What was told and what is coming make up a lawful whole that reaches the durable revision,
  // unless the subscription overflowed.
  ghost predicate Coherent(story: Story) {
    && story.shown <= |story.told|
    && Lawful(story.sync, story.base, story.Whole())
    && (!story.detached ==> CaughtUp(story.base, story.Whole(), story.revision))
  }

  ghost predicate Opens(story: Story) { Coherent(story) && story.told + story.rest == Opening(story.sync) }

  ghost predicate Listens(story: Story) {
    Coherent(story) && story.rest == [] && Opening(story.sync) <= story.told[..story.shown]
  }

  lemma ToldIsLawful(story: Story)
    requires Coherent(story)
    ensures Lawful(story.sync, story.base, story.told) && Body(story.told) == story.told
  {
    LawfulPrefix(story.sync, story.base, story.Whole(), |story.told|);
    assert story.Whole()[..|story.told|] == story.told;
  }

  lemma {:induction false} HeadMoves(left: seq<Message>, middle: seq<Message>, right: seq<Message>)
    requires middle != []
    ensures left + (middle + right) == left + [middle[0]] + (middle[1..] + right)
    ensures left + middle == left + [middle[0]] + middle[1..]
  {
  }

  lemma FeedStory(story: Story, after: Story)
    requires Opens(story) && story.rest != []
    requires after == story.(told := story.told + [story.rest[0]], rest := story.rest[1..])
    ensures Opens(after)
  {
    hide Lawful, CaughtUp, Opening;
    HeadMoves(story.told, story.rest, story.events);
  }

  lemma DrainStory(story: Story, after: Story)
    requires Listens(story) && story.events != []
    requires after == story.(told := story.told + [story.events[0]], events := story.events[1..])
    ensures Listens(after)
  {
    hide Lawful, CaughtUp, Opening;
    HeadMoves(story.told, story.events, []);
    assert story.rest + story.events == story.events + [] && after.rest + after.events == after.events + [];
    assert after.told[..after.shown] == story.told[..story.shown];
  }

  lemma InsertStory(story: Story, message: Message, after: Story)
    requires Listens(story) && !message.Event? && !message.Goodbye?
    requires after == story.(told := story.told + [message])
    ensures Listens(after)
  {
    assert Opening(story.sync) <= story.told;
    InsertKeepsLawful(story.sync, story.base, story.told, message, story.rest + story.events);
    hide Lawful, Durables, Opening;
    assert after.told[..after.shown] == story.told[..story.shown];
  }

  lemma OpeningIsInWhole(story: Story)
    requires Opens(story) || Listens(story)
    ensures Opening(story.sync) <= story.Whole()
  {
    hide Lawful, CaughtUp;
    if Opens(story) {
      assert story.Whole() == Opening(story.sync) + story.events;
    }
  }

  lemma PublishedWhole(story: Story, message: Message, after: Story)
    requires Coherent(story) && Opening(story.sync) <= story.Whole() && !story.detached && !message.Goodbye?
    requires message.Event? ==> message.revision == story.revision + 1
    requires message.Event? && message.origin.Some? ==> CommandResult(message.origin.value) in story.told
    requires after == story.(events := story.events + [message],
                             revision := if message.Event? then story.revision + 1 else story.revision)
    ensures Coherent(after)
  {
    PublishKeepsLawful(story.sync, story.base, story.Whole(), message);
    hide Lawful, Durables;
    assert after.Whole() == story.Whole() + [message];
  }

  // A published message reaches a subscription with room; a full one is detached instead.
  lemma PublishStory(story: Story, message: Message, after: Story)
    requires Opens(story) || Listens(story)
    requires !story.detached && !message.Goodbye?
    requires message.Event? ==> message.revision == story.revision + 1
    requires message.Event? && message.origin.Some? ==> CommandResult(message.origin.value) in story.told
    requires after == story.(events := story.events + [message],
                             revision := if message.Event? then story.revision + 1 else story.revision)
    ensures Opens(story) ==> Opens(after)
    ensures Listens(story) ==> Listens(after)
  {
    OpeningIsInWhole(story);
    PublishedWhole(story, message, after);
    hide Coherent;
  }

  lemma DetachedStory(story: Story, after: Story)
    requires after == story.(detached := true, revision := after.revision)
    ensures Opens(story) ==> Opens(after)
    ensures Listens(story) ==> Listens(after)
  {
    hide Lawful, CaughtUp;
    assert after.Whole() == story.Whole();
  }

  lemma ShowStory(story: Story, after: Story)
    requires after == story.(shown := after.shown) && story.shown <= after.shown <= |story.told|
    ensures Opens(story) ==> Opens(after)
    ensures Listens(story) ==> Listens(after)
  {
    hide Lawful, CaughtUp;
    assert after.Whole() == story.Whole();
    assert after.told[..after.shown][..story.shown] == story.told[..story.shown];
  }

  lemma ListenStory(story: Story)
    requires Opens(story) && story.rest == [] && story.shown == |story.told|
    ensures Listens(story)
  {
    hide Lawful, CaughtUp;
    assert story.told + story.rest == story.told[..story.shown];
  }

  // What a shutdown may take out of the messages told but not yet shown: everything from some
  // point on, or one message with only results behind it.
  lemma CutStory(story: Story, count: nat)
    requires Coherent(story) && count <= |story.told|
    ensures Lawful(story.sync, story.base, story.told[..count])
  {
    ToldIsLawful(story);
    hide Lawful;
    LawfulPrefix(story.sync, story.base, story.told, count);
  }

  lemma DropStory(story: Story, index: nat)
    requires Opens(story) || Listens(story)
    requires story.shown <= index < |story.told|
    requires forall i :: index < i < |story.told| ==> story.told[i].CommandResult?
    ensures Lawful(story.sync, story.base, Without(story.told, index))
  {
    ToldIsLawful(story);
    if Listens(story) {
      hide Lawful;
      assert story.told[..story.shown] <= story.told;
      DropKeepsLawful(story.sync, story.base, story.told, index);
    } else {
      NoResultInOpening(story.sync, story.base);
      hide Lawful;
      LastIsDropped(story.told, story.rest, index);
      LawfulPrefix(story.sync, story.base, story.told, index);
    }
  }

  // In a part of the opening, which has no results, only the last message can be the one.
  lemma LastIsDropped(told: seq<Message>, rest: seq<Message>, index: nat)
    requires index < |told| && forall i :: 0 <= i < |told + rest| ==> !(told + rest)[i].CommandResult?
    requires forall i :: index < i < |told| ==> told[i].CommandResult?
    ensures Without(told, index) == told[..index]
  {
    var last := |told| - 1;
    assert (told + rest)[last] == told[last];
    assert index == last;
  }

  lemma GoodbyeKeepsBody(messages: seq<Message>)
    requires Goodbye !in messages
    ensures Body(messages) == messages && Body(messages + [Goodbye]) == messages
  {
  }

  // What was shown of a lawful conversation is lawful.
  lemma ShownIsLawful(sync: seq<Message>, base: nat, told: seq<Message>, shown: seq<Message>)
    requires Lawful(sync, base, Body(told)) && shown <= told
    ensures Lawful(sync, base, Body(shown))
  {
    var body := Body(told);
    var count := if |shown| <= |body| then |shown| else |body|;
    assert Goodbye !in body;
    hide Lawful;
    LawfulPrefix(sync, base, body, count);
    assert shown[..count] == body[..count];
    assert Body(shown) == body[..count];
  }
}
