// Every run of the window and its worker over the intent queues: nothing is lost, duplicated
// or reordered, and what was merged means what was submitted.
module IntentRun {
  import opened Basics
  import opened Intents

  // `rejected` are the numbers of the submissions that were refused on the way.
  datatype Studio = Studio(
    submitted: seq<Intent>,
    pending: seq<Item>,
    channel: seq<Request>,
    deferred: seq<Item>,
    handled: seq<Item>,
    rejected: set<nat>,
    attached: bool,
    alive: bool)

  datatype Step =
    | Submit(intent: Intent)
    | Flush
    | SendStop
    | Defer
    | HandleDeferred
    | HandleNext
    | WorkerExit

  const START := Studio([], [], [], [], [], {}, true, true)

  function Ids(items: seq<Item>): (ids: seq<nat>) {
    if items == [] then [] else Ids(items[..|items| - 1]) + items[|items| - 1].ids
  }

  function Waiting(channel: seq<Request>): (items: seq<Item>) {
    if channel == [] then []
    else
      var front := Waiting(channel[..|channel| - 1]);
      var last := channel[|channel| - 1];
      if last.Ask? then front + [last.item] else front
  }

  function IdSet(items: seq<Item>): set<nat> { set id | id in Ids(items) }

  // Every intent in the system, oldest first.
  function Everything(studio: Studio): seq<Item> {
    studio.handled + studio.deferred + Waiting(studio.channel) + studio.pending
  }

  // ----- steps -----

  function Submitting(studio: Studio, intent: Intent): (after: Studio) {
    var id := |studio.submitted|;
    var item := Item(intent, [id]);
    var asked := studio.(submitted := studio.submitted + [intent]);
    var refused := asked.(rejected := asked.rejected + {id});
    if !studio.attached then refused
    else if studio.pending == [] && !studio.alive then refused.(attached := false)
    else if studio.pending == [] && |studio.channel| < REQUEST_CAPACITY then
      asked.(channel := studio.channel + [Ask(item)])
    else
      match Pushed(studio.pending, item, REQUEST_CAPACITY)
      case Some(pending) => asked.(pending := pending)
      case None => refused
  }

  // A window that finds the worker gone drops what it still held.
  function Flushing(studio: Studio): (after: Studio) {
    if !studio.alive && studio.pending != [] then
      studio.(pending := [], rejected := studio.rejected + IdSet(studio.pending), attached := false)
    else
      var moved := if studio.alive then Fitting(|studio.pending|, |studio.channel|) else 0;
      studio.(pending := studio.pending[moved..], channel := studio.channel + Asks(studio.pending[..moved]))
  }

  // The worker takes one request while it is busy with a command, a reconnect or its startup.
  function Deferring(studio: Studio): (after: Studio)
    requires studio.channel != []
  {
    var rest := studio.(channel := studio.channel[1..]);
    match studio.channel[0]
    case Stop => rest.(alive := false)
    case Ask(item) =>
      match Pushed(studio.deferred, item, DEFERRED_INTENT_CAPACITY)
      case Some(deferred) => rest.(deferred := deferred)
      case None => rest.(rejected := studio.rejected + IdSet([item]))
  }

  function Next(studio: Studio, step: Step): (after: Studio) {
    match step
    case Submit(intent) => Submitting(studio, intent)
    case Flush => Flushing(studio)
    case SendStop =>
      if studio.attached && studio.alive && |studio.channel| < REQUEST_CAPACITY
      then studio.(channel := studio.channel + [Stop]) else studio
    case Defer => if studio.alive && studio.channel != [] then Deferring(studio) else studio
    case HandleDeferred =>
      if studio.alive && studio.deferred != [] then
        studio.(deferred := studio.deferred[1..], handled := studio.handled + [studio.deferred[0]])
      else studio
    case HandleNext =>
      if studio.alive && studio.deferred == [] && studio.channel != [] && studio.channel[0].Ask? then
        studio.(channel := studio.channel[1..], handled := studio.handled + [studio.channel[0].item])
      else studio
    case WorkerExit => studio.(alive := false)
  }

  function RunOf(steps: seq<Step>): (studio: Studio) {
    if steps == [] then START else Next(RunOf(steps[..|steps| - 1]), steps[|steps| - 1])
  }

  // ----- lists of items -----

  lemma {:induction false} IdsAppend(left: seq<Item>, right: seq<Item>)
    ensures Ids(left + right) == Ids(left) + Ids(right)
  {
    if right == [] {
      assert left + right == left;
    } else {
      var whole, front, last := left + right, right[..|right| - 1], right[|right| - 1];
      IdsAppend(left, front);
      assert whole[..|whole| - 1] == left + front && whole[|whole| - 1] == last;
      Associates(Ids(left), Ids(front), last.ids);
    }
  }

  lemma IdsOfOne(item: Item)
    ensures Ids([item]) == item.ids
  {
    assert [item][..0] == [];
    assert Ids([item][..0]) == [];
  }

  lemma {:induction false} WaitingAppend(left: seq<Request>, right: seq<Request>)
    ensures Waiting(left + right) == Waiting(left) + Waiting(right)
  {
    if right == [] {
      assert left + right == left;
    } else {
      WaitingAppend(left, right[..|right| - 1]);
      assert (left + right)[..|left + right| - 1] == left + right[..|right| - 1];
    }
  }

  lemma {:induction false} WaitingAsks(items: seq<Item>)
    ensures Waiting(Asks(items)) == items
  {
    if items != [] {
      WaitingAsks(items[..|items| - 1]);
      assert Asks(items)[..|items| - 1] == Asks(items[..|items| - 1]);
    }
  }

  lemma WaitingOfOne(request: Request)
    ensures Waiting([request]) == if request.Ask? then [request.item] else []
  {
    assert [request][..0] == [];
    assert Waiting([request][..0]) == [];
  }

  lemma WaitingHead(channel: seq<Request>)
    requires channel != []
    ensures Waiting(channel) == Waiting([channel[0]]) + Waiting(channel[1..])
    ensures Waiting([channel[0]]) == if channel[0].Ask? then [channel[0].item] else []
  {
    WaitingAppend([channel[0]], channel[1..]);
    WaitingOfOne(channel[0]);
    assert channel == [channel[0]] + channel[1..];
  }

  // ----- which submissions are still in the system -----

  // The submissions below `count` that were not rejected, in order.
  function Survivors(count: nat, rejected: set<nat>): (ids: seq<nat>) {
    if count == 0 then []
    else Survivors(count - 1, rejected) + (if count - 1 in rejected then [] else [count - 1])
  }

  predicate Ascending(ids: seq<nat>) { forall i, j :: 0 <= i < j < |ids| ==> ids[i] < ids[j] }

  lemma {:induction false} SurvivorsAreSorted(count: nat, rejected: set<nat>)
    ensures var ids := Survivors(count, rejected);
            && Ascending(ids)
            && (forall id :: id in ids <==> 0 <= id < count && id !in rejected)
  {
    if count > 0 {
      SurvivorsAreSorted(count - 1, rejected);
      var front := Survivors(count - 1, rejected);
      hide Ascending;
      if count - 1 !in rejected {
        AscendingLast(front, count - 1);
      } else {
        assert front + [] == front;
      }
    }
  }

  lemma AscendingLast(ids: seq<nat>, last: nat)
    requires Ascending(ids) && forall id :: id in ids ==> id < last
    ensures Ascending(ids + [last])
  {
    assert forall i :: 0 <= i < |ids| ==> ids[i] in ids;
  }

  function Drop(ids: seq<nat>, block: set<nat>): (rest: seq<nat>) {
    if ids == [] then []
    else Drop(ids[..|ids| - 1], block) + (if ids[|ids| - 1] in block then [] else [ids[|ids| - 1]])
  }

  lemma {:induction false} DropAppend(left: seq<nat>, right: seq<nat>, block: set<nat>)
    ensures Drop(left + right, block) == Drop(left, block) + Drop(right, block)
  {
    if right == [] {
      assert left + right == left;
    } else {
      DropAppend(left, right[..|right| - 1], block);
      assert (left + right)[..|left + right| - 1] == left + right[..|right| - 1];
    }
  }

  predicate Inside(ids: seq<nat>, block: set<nat>) { forall i :: 0 <= i < |ids| ==> ids[i] in block }

  predicate Misses(ids: seq<nat>, block: set<nat>) { forall i :: 0 <= i < |ids| ==> ids[i] !in block }

  lemma {:induction false} DropAll(ids: seq<nat>, block: set<nat>)
    requires Inside(ids, block)
    ensures Drop(ids, block) == []
  {
    if ids != [] {
      DropAll(ids[..|ids| - 1], block);
    }
  }

  lemma {:induction false} DropNone(ids: seq<nat>, block: set<nat>)
    requires Misses(ids, block)
    ensures Drop(ids, block) == ids
  {
    if ids != [] {
      DropNone(ids[..|ids| - 1], block);
    }
  }

  lemma {:induction false} SurvivorsDrop(count: nat, rejected: set<nat>, block: set<nat>)
    ensures Survivors(count, rejected + block) == Drop(Survivors(count, rejected), block)
  {
    if count > 0 {
      SurvivorsDrop(count - 1, rejected, block);
      var front := Survivors(count - 1, rejected);
      var whole := front + [count - 1];
      assert whole[..|whole| - 1] == front && whole[|whole| - 1] == count - 1;
      assert front + [] == front;
    }
  }

  // Rejecting a block of submissions takes exactly that block out of the list.
  lemma SurvivorsWithout(count: nat, rejected: set<nat>, left: seq<nat>, block: seq<nat>, right: seq<nat>)
    requires Survivors(count, rejected) == left + block + right
    ensures Survivors(count, rejected + set id | id in block) == left + right
  {
    SurvivorsAreSorted(count, rejected);
    SurvivorsDrop(count, rejected, set id | id in block);
    Apart(left, block, right, set id | id in block);
    hide *;
    DropBlock(left, block, right, set id | id in block);
  }

  lemma DropBlock(left: seq<nat>, block: seq<nat>, right: seq<nat>, gone: set<nat>)
    requires Misses(left, gone) && Inside(block, gone) && Misses(right, gone)
    ensures Drop(left + block + right, gone) == left + right
  {
    hide *;
    DropAppend(left + block, right, gone);
    DropAppend(left, block, gone);
    DropNone(left, gone);
    DropAll(block, gone);
    DropNone(right, gone);
    assert left + [] == left;
  }

  lemma Apart(left: seq<nat>, block: seq<nat>, right: seq<nat>, gone: set<nat>)
    requires Ascending(left + block + right) && gone == set id | id in block
    ensures Misses(left, gone) && Inside(block, gone) && Misses(right, gone)
  {
    var ids := left + block + right;
    forall i, j | 0 <= i < |left| && 0 <= j < |block| ensures left[i] != block[j] {
      assert ids[i] == left[i] && ids[|left| + j] == block[j];
    }
    forall i, j | 0 <= i < |right| && 0 <= j < |block| ensures right[i] != block[j] {
      assert ids[|left| + |block| + i] == right[i] && ids[|left| + j] == block[j];
    }
  }

  // ----- what an item stands for -----

  predicate Within(ids: seq<nat>, count: nat) { forall i :: 0 <= i < |ids| ==> ids[i] < count }

  function Select(submitted: seq<Intent>, ids: seq<nat>): (intents: seq<Intent>)
    requires Within(ids, |submitted|)
    ensures |intents| == |ids|
    ensures forall i :: 0 <= i < |ids| ==> intents[i] == submitted[ids[i]]
  {
    seq(|ids|, i requires 0 <= i < |ids| => submitted[ids[i]])
  }

  function IntentsOf(items: seq<Item>): (intents: seq<Intent>)
    ensures |intents| == |items|
    ensures forall i :: 0 <= i < |items| ==> intents[i] == items[i].intent
  {
    seq(|items|, i requires 0 <= i < |items| => items[i].intent)
  }

  // The intent does to every show what its submissions do one after another.
  ghost predicate Stands<R(!new)>(meaning: Meaning<R>, submitted: seq<Intent>, item: Item) {
    && Within(item.ids, |submitted|)
    && (forall show: Show<R> ::
          Perform(meaning, item.intent, show) == Denote(meaning, Select(submitted, item.ids), show))
  }

  ghost predicate AllStand<R(!new)>(meaning: Meaning<R>, submitted: seq<Intent>, items: seq<Item>) {
    forall i :: 0 <= i < |items| ==> Stands(meaning, submitted, items[i])
  }

  lemma FreshStands<R(!new)>(meaning: Meaning<R>, submitted: seq<Intent>, intent: Intent)
    ensures Stands(meaning, submitted + [intent], Item(intent, [|submitted|]))
  {
    var grown := submitted + [intent];
    forall show: Show<R>
      ensures Perform(meaning, intent, show) == Denote(meaning, Select(grown, [|submitted|]), show)
    {
      assert Select(grown, [|submitted|]) == [intent];
      assert Denote(meaning, [intent][..0], show) == show;
    }
  }

  lemma StandsLater<R(!new)>(meaning: Meaning<R>, submitted: seq<Intent>, intent: Intent, items: seq<Item>)
    requires AllStand(meaning, submitted, items)
    ensures AllStand(meaning, submitted + [intent], items)
  {
    forall i | 0 <= i < |items| ensures Stands(meaning, submitted + [intent], items[i]) {
      assert Stands(meaning, submitted, items[i]);
      assert Select(submitted + [intent], items[i].ids) == Select(submitted, items[i].ids);
    }
  }

  lemma MergedStands<R(!new)>(meaning: Meaning<R>, submitted: seq<Intent>, tail: Item, item: Item)
    requires Stands(meaning, submitted, tail) && Stands(meaning, submitted, item)
    requires Coalesced(tail.intent, item.intent).Some?
    ensures Stands(meaning, submitted, Item(Coalesced(tail.intent, item.intent).value, tail.ids + item.ids))
  {
    var merged := Coalesced(tail.intent, item.intent).value;
    var ids := tail.ids + item.ids;
    assert Select(submitted, ids) == Select(submitted, tail.ids) + Select(submitted, item.ids);
    forall show: Show<R> ensures Perform(meaning, merged, show) == Denote(meaning, Select(submitted, ids), show) {
      CoalescedMeansBoth(meaning, tail.intent, item.intent, show);
      DenoteAppend(meaning, Select(submitted, tail.ids), Select(submitted, item.ids), show);
    }
  }

  // Pushing keeps the submissions in order and keeps every item honest.
  lemma PushedStands<R(!new)>(meaning: Meaning<R>, submitted: seq<Intent>, queue: seq<Item>, item: Item, capacity: nat)
    requires AllStand(meaning, submitted, queue) && Stands(meaning, submitted, item)
    requires Pushed(queue, item, capacity).Some?
    ensures AllStand(meaning, submitted, Pushed(queue, item, capacity).value)
    ensures Ids(Pushed(queue, item, capacity).value) == Ids(queue) + item.ids
  {
    var pushed := Pushed(queue, item, capacity).value;
    if queue != [] && Coalesced(queue[|queue| - 1].intent, item.intent).Some? {
      MergedStands(meaning, submitted, queue[|queue| - 1], item);
      assert pushed[..|pushed| - 1] == queue[..|queue| - 1];
    } else {
      assert pushed[..|pushed| - 1] == queue;
    }
  }

  lemma {:induction false} ItemsMeanTheirIds<R(!new)>(
    meaning: Meaning<R>, submitted: seq<Intent>, items: seq<Item>, show: Show<R>)
    requires AllStand(meaning, submitted, items)
    ensures Within(Ids(items), |submitted|)
    ensures Denote(meaning, IntentsOf(items), show) == Denote(meaning, Select(submitted, Ids(items)), show)
  {
    if items != [] {
      var front, last := items[..|items| - 1], items[|items| - 1];
      ItemsMeanTheirIds(meaning, submitted, front, show);
      assert Stands(meaning, submitted, last) && Ids(items) == Ids(front) + last.ids;
      hide AllStand, Ids;
      SelectAppend(submitted, Ids(front), last.ids);
      IntentsOfLast(items);
      DenoteAppend(meaning, Select(submitted, Ids(front)), Select(submitted, last.ids), show);
      DenoteLast(meaning, IntentsOf(front), last.intent, show);
    }
  }

  lemma SelectAppend(submitted: seq<Intent>, left: seq<nat>, right: seq<nat>)
    requires Within(left, |submitted|) && Within(right, |submitted|)
    ensures Within(left + right, |submitted|)
    ensures Select(submitted, left + right) == Select(submitted, left) + Select(submitted, right)
  {
  }

  lemma IntentsOfLast(items: seq<Item>)
    requires items != []
    ensures IntentsOf(items) == IntentsOf(items[..|items| - 1]) + [items[|items| - 1].intent]
  {
  }

  lemma DenoteLast<R>(meaning: Meaning<R>, intents: seq<Intent>, last: Intent, show: Show<R>)
    ensures Denote(meaning, intents + [last], show) == Perform(meaning, last, Denote(meaning, intents, show))
  {
    hide Perform;
    assert (intents + [last])[..|intents|] == intents;
  }

  // ----- the invariant -----

  ghost predicate Accounted<R(!new)>(meaning: Meaning<R>, studio: Studio) {
    && Ids(Everything(studio)) == Survivors(|studio.submitted|, studio.rejected)
    && (forall id :: id in studio.rejected ==> id < |studio.submitted|)
    && AllStand(meaning, studio.submitted, Everything(studio))
    && |studio.pending| <= REQUEST_CAPACITY
    && |studio.channel| <= REQUEST_CAPACITY
    && |studio.deferred| <= DEFERRED_INTENT_CAPACITY
    && (!studio.attached ==> studio.pending == [])
  }

  // The same items in the same order, and no change to what was submitted or rejected.
  lemma MovingIsAccounted<R(!new)>(meaning: Meaning<R>, before: Studio, after: Studio)
    requires Accounted(meaning, before)
    requires Everything(after) == Everything(before)
    requires after.submitted == before.submitted && after.rejected == before.rejected
    requires |after.pending| <= REQUEST_CAPACITY && |after.channel| <= REQUEST_CAPACITY
    requires |after.deferred| <= DEFERRED_INTENT_CAPACITY && (!after.attached ==> after.pending == [])
    ensures Accounted(meaning, after)
  {
  }

  // One more submission at the very end.
  lemma GrowingIsAccounted<R(!new)>(meaning: Meaning<R>, before: Studio, after: Studio, intent: Intent)
    requires Accounted(meaning, before)
    requires after.submitted == before.submitted + [intent] && after.rejected == before.rejected
    requires Ids(Everything(after)) == Ids(Everything(before)) + [|before.submitted|]
    requires AllStand(meaning, after.submitted, Everything(after))
    requires |after.pending| <= REQUEST_CAPACITY && |after.channel| <= REQUEST_CAPACITY
    requires |after.deferred| <= DEFERRED_INTENT_CAPACITY && after.attached
    ensures Accounted(meaning, after)
  {
    hide Everything, AllStand;
    assert |before.submitted| !in before.rejected;
  }

  lemma RefusingIsAccounted<R(!new)>(meaning: Meaning<R>, before: Studio, after: Studio, intent: Intent)
    requires Accounted(meaning, before)
    requires Everything(after) == Everything(before) && after.submitted == before.submitted + [intent]
    requires after.rejected == before.rejected + {|before.submitted|}
    requires after.pending == before.pending && after.channel == before.channel && after.deferred == before.deferred
    requires !after.attached ==> after.pending == []
    ensures Accounted(meaning, after)
  {
    StandsLater(meaning, before.submitted, intent, Everything(before));
    hide Everything, AllStand;
    SurvivorsAgree(|before.submitted|, before.rejected, after.rejected);
  }

  lemma SendingIsAccounted<R(!new)>(meaning: Meaning<R>, before: Studio, after: Studio, intent: Intent)
    requires Accounted(meaning, before) && before.pending == [] && before.attached
    requires |before.channel| < REQUEST_CAPACITY
    requires after == before.(submitted := before.submitted + [intent],
                              channel := before.channel + [Ask(Item(intent, [|before.submitted|]))])
    ensures Accounted(meaning, after)
  {
    var item := Item(intent, [|before.submitted|]);
    var all := Everything(before);
    SentIsLast(before, after, item);
    FreshStands(meaning, before.submitted, intent);
    StandsLater(meaning, before.submitted, intent, all);
    hide Everything, Ids, Waiting, Stands, Survivors;
    JoinedStand(meaning, after.submitted, all, [item]);
    IdsAppend(all, [item]);
    IdsOfOne(item);
    GrowingIsAccounted(meaning, before, after, intent);
  }

  lemma SentIsLast(before: Studio, after: Studio, item: Item)
    requires before.pending == [] && after.pending == [] && after.channel == before.channel + [Ask(item)]
    requires after.handled == before.handled && after.deferred == before.deferred
    ensures Everything(after) == Everything(before) + [item]
  {
    WaitingAppend(before.channel, [Ask(item)]);
    WaitingOfOne(Ask(item));
    var front, waiting := before.handled + before.deferred, Waiting(before.channel);
    hide Waiting;
    assert front + (waiting + [item]) + [] == front + waiting + [] + [item];
  }

  lemma PushingIsAccounted<R(!new)>(meaning: Meaning<R>, before: Studio, after: Studio, intent: Intent)
    requires Accounted(meaning, before) && before.attached
    requires var pushed := Pushed(before.pending, Item(intent, [|before.submitted|]), REQUEST_CAPACITY);
             && pushed.Some?
             && after == before.(submitted := before.submitted + [intent], pending := pushed.value)
    ensures Accounted(meaning, after)
  {
    var item := Item(intent, [|before.submitted|]);
    var front := before.handled + before.deferred + Waiting(before.channel);
    assert Everything(before) == front + before.pending && Everything(after) == front + after.pending;
    assert AllStand(meaning, before.submitted, Everything(before));
    assert |before.pending| <= REQUEST_CAPACITY && |before.channel| <= REQUEST_CAPACITY;
    assert |before.deferred| <= DEFERRED_INTENT_CAPACITY;
    hide *;
    FreshStands(meaning, before.submitted, intent);
    StandsLater(meaning, before.submitted, intent, Everything(before));
    PushBehind(meaning, after.submitted, front, before.pending, item, REQUEST_CAPACITY);
    GrowingIsAccounted(meaning, before, after, intent);
  }

  // Pushing onto the last queue: the front stays, the pushed item is the last.
  lemma PushBehind<R(!new)>(meaning: Meaning<R>, submitted: seq<Intent>, front: seq<Item>, queue: seq<Item>, item: Item,
                            capacity: nat)
    requires AllStand(meaning, submitted, front + queue) && Stands(meaning, submitted, item)
    requires Pushed(queue, item, capacity).Some?
    ensures AllStand(meaning, submitted, front + Pushed(queue, item, capacity).value)
    ensures Ids(front + Pushed(queue, item, capacity).value) == Ids(front + queue) + item.ids
  {
    hide *;
    var pushed := Pushed(queue, item, capacity).value;
    TailStands(meaning, submitted, front, queue);
    PushedStands(meaning, submitted, queue, item, capacity);
    JoinedStand(meaning, submitted, front, pushed);
    IdsAppend(front, queue);
    IdsAppend(front, pushed);
    assert Ids(front) + (Ids(queue) + item.ids) == Ids(front) + Ids(queue) + item.ids;
  }

  lemma SubmittingIsAccounted<R(!new)>(meaning: Meaning<R>, studio: Studio, intent: Intent)
    requires Accounted(meaning, studio)
    ensures Accounted(meaning, Submitting(studio, intent))
  {
    var after := Submitting(studio, intent);
    assert |studio.submitted| !in studio.rejected;
    assert !studio.attached ==> studio.pending == [];
    hide Accounted;
    if |studio.submitted| in after.rejected {
      RefusingIsAccounted(meaning, studio, after, intent);
    } else if after.channel != studio.channel {
      SendingIsAccounted(meaning, studio, after, intent);
    } else {
      PushingIsAccounted(meaning, studio, after, intent);
    }
  }

  // Taking a block of items out of the system.
  lemma RejectingIsAccounted<R(!new)>(
    meaning: Meaning<R>, before: Studio, after: Studio, left: seq<Item>, block: seq<Item>, right: seq<Item>)
    requires Accounted(meaning, before)
    requires Everything(before) == left + block + right && Everything(after) == left + right
    requires after.submitted == before.submitted && after.rejected == before.rejected + IdSet(block)
    requires |after.pending| <= REQUEST_CAPACITY && |after.channel| <= REQUEST_CAPACITY
    requires |after.deferred| <= DEFERRED_INTENT_CAPACITY && (!after.attached ==> after.pending == [])
    ensures Accounted(meaning, after)
  {
    assert Ids(Everything(before)) == Survivors(|before.submitted|, before.rejected);
    assert AllStand(meaning, before.submitted, Everything(before));
    RejectedIdsKnown(|before.submitted|, before.rejected, left, block, right);
    hide Everything, Ids, Survivors, AllStand, IdSet;
    TailStands(meaning, before.submitted, left + block, right);
    TailStands(meaning, before.submitted, left, block);
    JoinedStand(meaning, before.submitted, left, right);
  }

  // The account of a block that is rejected.
  lemma RejectedIdsKnown(count: nat, rejected: set<nat>, left: seq<Item>, block: seq<Item>, right: seq<Item>)
    requires Ids(left + block + right) == Survivors(count, rejected)
    ensures Ids(left + right) == Survivors(count, rejected + IdSet(block))
    ensures forall id :: id in IdSet(block) ==> id < count
  {
    IdsAppend(left + block, right);
    IdsAppend(left, block);
    IdsAppend(left, right);
    SurvivorsAreSorted(count, rejected);
    hide Ids, Survivors, Ascending;
    SurvivorsWithout(count, rejected, Ids(left), Ids(block), Ids(right));
    forall id | id in IdSet(block) ensures id < count {
      assert id in Ids(left) + Ids(block) + Ids(right);
    }
  }

  lemma FlushingIsAccounted<R(!new)>(meaning: Meaning<R>, studio: Studio)
    requires Accounted(meaning, studio)
    ensures Accounted(meaning, Flushing(studio))
  {
    var after := Flushing(studio);
    hide Waiting, Ids, AllStand, Survivors, IdSet;
    if !studio.alive && studio.pending != [] {
      var front := studio.handled + studio.deferred + Waiting(studio.channel);
      assert Everything(studio) == front + studio.pending + [] && Everything(after) == front + [];
      RejectingIsAccounted(meaning, studio, after, front, studio.pending, []);
    } else {
      FlushingMoves(studio);
      MovingIsAccounted(meaning, studio, after);
    }
  }

  lemma WaitingSent(channel: seq<Request>, items: seq<Item>)
    ensures Waiting(channel + Asks(items)) == Waiting(channel) + items
  {
    hide Waiting, Asks;
    WaitingAppend(channel, Asks(items));
    WaitingAsks(items);
  }

  lemma FlushingMoves(studio: Studio)
    requires studio.alive || studio.pending == []
    ensures Everything(Flushing(studio)) == Everything(studio)
  {
    var moved := if studio.alive then Fitting(|studio.pending|, |studio.channel|) else 0;
    var sent, kept := studio.pending[..moved], studio.pending[moved..];
    WaitingSent(studio.channel, sent);
    var front, waiting := studio.handled + studio.deferred, Waiting(studio.channel);
    hide Waiting, Fitting, Asks;
    assert studio.pending == sent + kept;
    Associates(front, waiting, sent);
    Associates(front + waiting, sent, kept);
    assert Everything(Flushing(studio)) == front + (waiting + sent) + kept;
  }

  lemma DeferringIsAccounted<R(!new)>(meaning: Meaning<R>, studio: Studio)
    requires Accounted(meaning, studio) && studio.channel != []
    ensures Accounted(meaning, Deferring(studio))
  {
    hide *;
    WaitingHead(studio.channel);
    if studio.channel[0].Stop? {
      StoppingIsAccounted(meaning, studio);
    } else {
      var item, rest := studio.channel[0].item, Waiting(studio.channel[1..]);
      Associates([item], rest, studio.pending);
      DeferringItemIsAccounted(meaning, studio, item, rest + studio.pending);
    }
  }

  lemma StoppingIsAccounted<R(!new)>(meaning: Meaning<R>, studio: Studio)
    requires Accounted(meaning, studio) && studio.channel != [] && studio.channel[0].Stop?
    requires Waiting(studio.channel) == Waiting([studio.channel[0]]) + Waiting(studio.channel[1..])
    requires Waiting([studio.channel[0]]) == []
    ensures Accounted(meaning, Deferring(studio))
  {
    hide Waiting, Pushed, Ids, AllStand, Survivors;
    assert Waiting(studio.channel) == Waiting(studio.channel[1..]);
    assert Everything(Deferring(studio)) == Everything(studio);
    MovingIsAccounted(meaning, studio, Deferring(studio));
  }

  lemma DeferringItemIsAccounted<R(!new)>(meaning: Meaning<R>, studio: Studio, item: Item, right: seq<Item>)
    requires Accounted(meaning, studio) && studio.channel != [] && studio.channel[0] == Ask(item)
    requires right == Waiting(studio.channel[1..]) + studio.pending
    requires Waiting(studio.channel) + studio.pending == [item] + right
    ensures Accounted(meaning, Deferring(studio))
  {
    var after := Deferring(studio);
    hide Waiting, Ids, AllStand, Survivors;
    EverythingAround(studio, [item], right);
    EverythingAround(after, [], right);
    assert after.handled + after.deferred + [] == after.handled + after.deferred;
    hide Everything;
    if Pushed(studio.deferred, item, DEFERRED_INTENT_CAPACITY).None? {
      RejectingIsAccounted(meaning, studio, after, studio.handled + studio.deferred, [item], right);
    } else {
      DeferredIsAccounted(meaning, studio, after, item, right);
    }
  }

  lemma EverythingAround(studio: Studio, head: seq<Item>, right: seq<Item>)
    requires Waiting(studio.channel) + studio.pending == head + right
    ensures Everything(studio) == studio.handled + studio.deferred + head + right
  {
    var left, waiting := studio.handled + studio.deferred, Waiting(studio.channel);
    hide Waiting;
    assert (left + waiting) + studio.pending == left + (waiting + studio.pending);
  }

  lemma DeferredIsAccounted<R(!new)>(meaning: Meaning<R>, before: Studio, after: Studio, item: Item, right: seq<Item>)
    requires Accounted(meaning, before)
    requires Everything(before) == before.handled + before.deferred + [item] + right
    requires Pushed(before.deferred, item, DEFERRED_INTENT_CAPACITY) == Some(after.deferred)
    requires Everything(after) == before.handled + after.deferred + right
    requires after.submitted == before.submitted && after.rejected == before.rejected
    requires |after.pending| <= REQUEST_CAPACITY && |after.channel| <= REQUEST_CAPACITY
    requires !after.attached ==> after.pending == []
    ensures Accounted(meaning, after)
  {
    hide Everything, Ids, Stands, Coalesced;
    PushInside(meaning, before.submitted, before.handled, before.deferred, item, right, DEFERRED_INTENT_CAPACITY);
    assert |after.deferred| <= DEFERRED_INTENT_CAPACITY;
  }

  // Pushing an item onto the queue just ahead of it changes neither the order nor the meaning.
  lemma PushInside<R(!new)>(meaning: Meaning<R>, submitted: seq<Intent>, left: seq<Item>, queue: seq<Item>, item: Item,
                            right: seq<Item>, capacity: nat)
    requires AllStand(meaning, submitted, left + queue + [item] + right)
    requires Pushed(queue, item, capacity).Some?
    ensures var pushed := Pushed(queue, item, capacity).value;
            && AllStand(meaning, submitted, left + pushed + right)
            && Ids(left + pushed + right) == Ids(left + queue + [item] + right)
  {
    var pushed := Pushed(queue, item, capacity).value;
    TailStands(meaning, submitted, left + queue + [item], right);
    TailStands(meaning, submitted, left + queue, [item]);
    TailStands(meaning, submitted, left, queue);
    assert Stands(meaning, submitted, [item][0]);
    hide Ids, AllStand, Stands, Pushed;
    PushedStands(meaning, submitted, queue, item, capacity);
    JoinedStand(meaning, submitted, left, pushed);
    JoinedStand(meaning, submitted, left + pushed, right);
    IdsInside(left, queue, item, right, pushed);
  }

  lemma IdsInside(left: seq<Item>, queue: seq<Item>, item: Item, right: seq<Item>, pushed: seq<Item>)
    requires Ids(pushed) == Ids(queue) + item.ids
    ensures Ids(left + pushed + right) == Ids(left + queue + [item] + right)
  {
    IdsOfOne(item);
    hide Ids;
    IdsAround(left, queue, [item], right);
    IdsAppend(left + pushed, right);
    IdsAppend(left, pushed);
    assert Ids(left) + (Ids(queue) + item.ids) == Ids(left) + Ids(queue) + item.ids;
  }

  lemma JoinedStand<R(!new)>(meaning: Meaning<R>, submitted: seq<Intent>, left: seq<Item>, right: seq<Item>)
    requires AllStand(meaning, submitted, left) && AllStand(meaning, submitted, right)
    ensures AllStand(meaning, submitted, left + right)
  {
  }

  lemma IdsAround(left: seq<Item>, middle: seq<Item>, last: seq<Item>, right: seq<Item>)
    ensures Ids(left + middle + last + right) == Ids(left) + Ids(middle) + Ids(last) + Ids(right)
  {
    IdsAppend(left + middle + last, right);
    IdsAppend(left + middle, last);
    IdsAppend(left, middle);
  }

  lemma SurvivorsAgree(count: nat, left: set<nat>, right: set<nat>)
    requires right == left + {count}
    ensures Survivors(count, left) == Survivors(count, right)
  {
    SurvivorsAreSorted(count, left);
    SurvivorsDrop(count, left, {count});
    DropNone(Survivors(count, left), {count});
  }

  lemma TailStands<R(!new)>(meaning: Meaning<R>, submitted: seq<Intent>, left: seq<Item>, right: seq<Item>)
    requires AllStand(meaning, submitted, left + right)
    ensures AllStand(meaning, submitted, left) && AllStand(meaning, submitted, right)
  {
    assert forall i :: 0 <= i < |left| ==> left[i] == (left + right)[i];
    assert forall i :: 0 <= i < |right| ==> right[i] == (left + right)[|left| + i];
  }

  lemma NextIsAccounted<R(!new)>(meaning: Meaning<R>, studio: Studio, step: Step)
    requires Accounted(meaning, studio)
    ensures Accounted(meaning, Next(studio, step))
  {
    var after := Next(studio, step);
    if step.Submit? {
      SubmittingIsAccounted(meaning, studio, step.intent);
    } else if step.Flush? {
      FlushingIsAccounted(meaning, studio);
    } else if step.Defer? && studio.alive && studio.channel != [] {
      DeferringIsAccounted(meaning, studio);
    } else {
      MovingStep(studio, step);
      MovingIsAccounted(meaning, studio, after);
    }
  }

  lemma MovingStep(studio: Studio, step: Step)
    requires !step.Submit? && !step.Flush? && (step.Defer? ==> !studio.alive || studio.channel == [])
    ensures var after := Next(studio, step);
            && Everything(after) == Everything(studio)
            && after.submitted == studio.submitted && after.rejected == studio.rejected
            && after.pending == studio.pending && after.attached == studio.attached
            && (|studio.channel| <= REQUEST_CAPACITY ==> |after.channel| <= REQUEST_CAPACITY)
            && |after.deferred| <= |studio.deferred|
  {
    if step.SendStop? {
      StopAddsNothing(studio.channel);
      hide Waiting;
    } else if step.HandleNext? && studio.channel != [] {
      HandlingNextMoves(studio);
      hide Waiting;
    } else if step.HandleDeferred? && studio.deferred != [] {
      hide Waiting;
      assert studio.handled + [studio.deferred[0]] + studio.deferred[1..] == studio.handled + studio.deferred;
    }
  }

  lemma StopAddsNothing(channel: seq<Request>)
    ensures Waiting(channel + [Stop]) == Waiting(channel)
  {
    assert (channel + [Stop])[..|channel|] == channel;
  }

  lemma HandlingNextMoves(studio: Studio)
    requires studio.channel != []
    ensures Everything(Next(studio, HandleNext)) == Everything(studio)
  {
    if studio.alive && studio.deferred == [] && studio.channel[0].Ask? {
      WaitingHead(studio.channel);
      var handled, item, rest := studio.handled, studio.channel[0].item, Waiting(studio.channel[1..]);
      assert Waiting(studio.channel) == [item] + rest;
      hide Waiting;
      assert handled + [] + ([item] + rest) == handled + [item] + [] + rest;
    }
  }

  lemma {:induction false} EveryRunIsAccounted<R(!new)>(meaning: Meaning<R>, steps: seq<Step>)
    ensures Accounted(meaning, RunOf(steps))
  {
    if steps != [] {
      EveryRunIsAccounted(meaning, steps[..|steps| - 1]);
      NextIsAccounted(meaning, RunOf(steps[..|steps| - 1]), steps[|steps| - 1]);
    }
  }

  // On every run, whatever the opaque intents do: the intents handled and still waiting, in
  // order, do to every show what the submissions that were not rejected do in the order they
  // were made.
  lemma CoalescingPreservesMeaning<R(!new)>(meaning: Meaning<R>, steps: seq<Step>, show: Show<R>)
    ensures var studio := RunOf(steps);
            var kept := Survivors(|studio.submitted|, studio.rejected);
            && Within(kept, |studio.submitted|)
            && Denote(meaning, IntentsOf(Everything(studio)), show) ==
                 Denote(meaning, Select(studio.submitted, kept), show)
  {
    EveryRunIsAccounted(meaning, steps);
    var studio := RunOf(steps);
    ItemsMeanTheirIds(meaning, studio.submitted, Everything(studio), show);
  }

  // On every run each submission is either rejected or stands in exactly one place among the
  // items handled and waiting, in submission order, and no queue exceeds its bound.
  lemma EverySubmissionIsInOnePlace(steps: seq<Step>)
    ensures var studio := RunOf(steps);
            var ids := Ids(Everything(studio));
            && Ascending(ids)
            && (forall id :: 0 <= id < |studio.submitted| ==> (id in ids <==> id !in studio.rejected))
            && (forall id :: id in ids || id in studio.rejected ==> 0 <= id < |studio.submitted|)
            && |studio.pending| <= REQUEST_CAPACITY && |studio.channel| <= REQUEST_CAPACITY
            && |studio.deferred| <= DEFERRED_INTENT_CAPACITY
  {
    EveryRunIsAccounted((tag: nat, show: Show<nat>) => show, steps);
    var studio := RunOf(steps);
    SurvivorsAreSorted(|studio.submitted|, studio.rejected);
  }
}
