// Operator intents on their way from the studio's window to its worker: merging of adjacent
// edits, the bounded queues they wait in, and what a whole sequence of them means
// (apps/freemix-studio/src/native.rs).
module Intents {
  import opened Basics

  const REQUEST_CAPACITY: nat := 16
  const DEFERRED_INTENT_CAPACITY: nat := 16

  datatype Strip = Strip(gain: int, balance: int, muted: bool, soloed: bool, followVideo: bool, delay: nat)

  datatype StripUpdate = StripUpdate(
    gain: Option<int>, balance: Option<int>, muted: Option<bool>, soloed: Option<bool>,
    followVideo: Option<bool>, delay: Option<nat>)

  // Every intent but the two that merge is known only by a tag.
  datatype Intent =
    | SetManualPosition(position: int)
    | SetStrip(input: nat, update: StripUpdate)
    | Other(tag: nat)

  function Or<T>(first: Option<T>, second: Option<T>): Option<T> { if first.Some? then first else second }

  function OrElse<T>(first: Option<T>, otherwise: T): T { if first.Some? then first.value else otherwise }

  // The newer update wins field by field.
  function Merged(current: StripUpdate, update: StripUpdate): StripUpdate {
    StripUpdate(Or(update.gain, current.gain), Or(update.balance, current.balance), Or(update.muted, current.muted),
                Or(update.soloed, current.soloed), Or(update.followVideo, current.followVideo),
                Or(update.delay, current.delay))
  }

  function Coalesced(tail: Intent, incoming: Intent): (merged: Option<Intent>) {
    match (tail, incoming)
    case (SetManualPosition(_), SetManualPosition(position)) => Some(SetManualPosition(position))
    case (SetStrip(current, update), SetStrip(input, newer)) =>
      if current == input then Some(SetStrip(current, Merged(update, newer))) else None
    case _ => None
  }

  // ----- what intents mean -----

  datatype EditError = NotSynchronized | InputUnavailable

  function ResolveStrip(view: Option<map<nat, Strip>>, input: nat, update: StripUpdate): Result<Strip, EditError> {
    if view.None? then Err(NotSynchronized)
    else if input !in view.value then Err(InputUnavailable)
    else
      var strip := view.value[input];
      Ok(Strip(OrElse(update.gain, strip.gain), OrElse(update.balance, strip.balance),
               OrElse(update.muted, strip.muted), OrElse(update.soloed, strip.soloed),
               OrElse(update.followVideo, strip.followVideo), OrElse(update.delay, strip.delay)))
  }

  // The show an intent acts on; `rest` is whatever the opaque intents also touch.
  datatype Show<R> = Show(manual: int, strips: map<nat, Strip>, rest: R)

  type Meaning<!R> = (nat, Show<R>) -> Show<R>

  function Perform<R>(meaning: Meaning<R>, intent: Intent, show: Show<R>): Show<R> {
    match intent
    case SetManualPosition(position) => show.(manual := position)
    case SetStrip(input, update) =>
      (match ResolveStrip(Some(show.strips), input, update)
       case Ok(strip) => show.(strips := show.strips[input := strip])
       case Err(_) => show)
    case Other(tag) => meaning(tag, show)
  }

  function Denote<R>(meaning: Meaning<R>, intents: seq<Intent>, show: Show<R>): Show<R> {
    if intents == [] then show
    else Perform(meaning, intents[|intents| - 1], Denote(meaning, intents[..|intents| - 1], show))
  }

  // Resolving a merged update is resolving the newer one against what the older one left,
  // with the same error when the strip cannot be edited at all.
  lemma MergedUpdateResolves(view: Option<map<nat, Strip>>, input: nat, older: StripUpdate, newer: StripUpdate)
    ensures var first := ResolveStrip(view, input, older);
            ResolveStrip(view, input, Merged(older, newer)) ==
              if first.Ok? then ResolveStrip(Some(view.value[input := first.value]), input, newer) else first
  {
  }

  // Merging preserves meaning on every show.
  lemma CoalescedMeansBoth<R>(meaning: Meaning<R>, tail: Intent, incoming: Intent, show: Show<R>)
    requires Coalesced(tail, incoming).Some?
    ensures Perform(meaning, Coalesced(tail, incoming).value, show) ==
              Perform(meaning, incoming, Perform(meaning, tail, show))
  {
    if tail.SetStrip? {
      MergedUpdateResolves(Some(show.strips), tail.input, tail.update, incoming.update);
      var first := ResolveStrip(Some(show.strips), tail.input, tail.update);
      if first.Ok? {
        var once := show.strips[tail.input := first.value];
        var both := ResolveStrip(Some(once), tail.input, incoming.update).value;
        assert once[tail.input := both] == show.strips[tail.input := both];
      }
    }
  }

  lemma {:induction false} DenoteAppend<R>(meaning: Meaning<R>, left: seq<Intent>, right: seq<Intent>, show: Show<R>)
    ensures Denote(meaning, left + right, show) == Denote(meaning, right, Denote(meaning, left, show))
  {
    if right == [] {
      assert left + right == left;
    } else {
      var front := right[..|right| - 1];
      DenoteAppend(meaning, left, front, show);
      assert (left + right)[..|left + right| - 1] == left + front;
    }
  }

  // ----- the queues -----

  // A waiting intent and the numbers of the submissions it stands for.
  datatype Item = Item(intent: Intent, ids: seq<nat>)

  datatype Request = Ask(item: Item) | Stop

  // Merge into the tail, or append below the capacity, or refuse.
  function Pushed(queue: seq<Item>, item: Item, capacity: nat): (pushed: Option<seq<Item>>)
    ensures pushed.Some? && |queue| <= capacity ==> |pushed.value| <= capacity
  {
    var merged := if queue == [] then None else Coalesced(queue[|queue| - 1].intent, item.intent);
    if merged.Some? then
      Some(queue[..|queue| - 1] + [Item(merged.value, queue[|queue| - 1].ids + item.ids)])
    else if |queue| == capacity then None
    else Some(queue + [item])
  }

  // How many of the pending intents the bounded channel still takes.
  function Fitting(pending: nat, channel: nat): nat {
    if channel >= REQUEST_CAPACITY then 0
    else if pending <= REQUEST_CAPACITY - channel then pending
    else REQUEST_CAPACITY - channel
  }

  function Asks(items: seq<Item>): (requests: seq<Request>)
    ensures |requests| == |items|
    ensures forall i :: 0 <= i < |items| ==> requests[i] == Ask(items[i])
  {
    seq(|items|, i requires 0 <= i < |items| => Ask(items[i]))
  }

  lemma AsksNext(items: seq<Item>, count: nat)
    requires count < |items|
    ensures Asks(items[..count + 1]) == Asks(items[..count]) + [Ask(items[count])]
  {
  }

  datatype EnqueueError = Full | Disconnected

  // The sending half of the worker's channel.
  class RequestChannel {
    var queue: seq<Request>
    var alive: bool

    constructor ()
      ensures queue == [] && alive
    {
      queue, alive := [], true;
    }

    method TrySend(request: Request) returns (result: Result<(), EnqueueError>)
      modifies this
      ensures alive == old(alive)
      ensures result == if !alive then Err(Disconnected)
                        else if |old(queue)| >= REQUEST_CAPACITY then Err(Full) else Ok(())
      ensures queue == if result.Ok? then old(queue) + [request] else old(queue)
    {
      if !alive {
        return Err(Disconnected);
      }
      if |queue| >= REQUEST_CAPACITY {
        return Err(Full);
      }
      queue := queue + [request];
      return Ok(());
    }
  }

  class PendingIntents {
    var intents: seq<Item>

    constructor ()
      ensures intents == []
    {
      intents := [];
    }

    method Submit(sender: RequestChannel, item: Item) returns (result: Result<(), EnqueueError>)
      modifies this, sender
      ensures sender.alive == old(sender.alive)
      ensures var sends := old(intents) == [] && (!sender.alive || |old(sender.queue)| < REQUEST_CAPACITY);
              var pushed := Pushed(old(intents), item, REQUEST_CAPACITY);
              if sends then
                && intents == old(intents)
                && result == (if sender.alive then Ok(()) else Err(Disconnected))
                && sender.queue == (if sender.alive then old(sender.queue) + [Ask(item)] else old(sender.queue))
              else
                && sender.queue == old(sender.queue)
                && result == (if pushed.Some? then Ok(()) else Err(Full))
                && intents == (if pushed.Some? then pushed.value else old(intents))
    {
      if intents == [] {
        result := sender.TrySend(Ask(item));
        if result.Ok? || result.error.Disconnected? {
          return;
        }
      }
      result := Push(item);
    }

    // Hands over from the front for as long as the channel takes more.
    method Flush(sender: RequestChannel) returns (result: Result<(), EnqueueError>)
      modifies this, sender
      ensures sender.alive == old(sender.alive)
      ensures var moved := if sender.alive then Fitting(|old(intents)|, |old(sender.queue)|) else 0;
              && intents == old(intents)[moved..]
              && sender.queue == old(sender.queue) + Asks(old(intents)[..moved])
              && result == (if !sender.alive && old(intents) != [] then Err(Disconnected) else Ok(()))
    {
      ghost var before, queued := intents, sender.queue;
      ghost var moved := 0;
      while intents != []
        invariant 0 <= moved <= |before| && intents == before[moved..]
        invariant sender.alive == old(sender.alive) && sender.queue == queued + Asks(before[..moved])
        invariant moved > 0 ==> sender.alive && |queued| + moved <= REQUEST_CAPACITY
        decreases |intents|
      {
        var sent := sender.TrySend(Ask(intents[0]));
        if sent.Err? {
          if sent.error.Full? {
            return Ok(());
          }
          return sent;
        }
        AsksNext(before, moved);
        hide Asks;
        intents := intents[1..];
        moved := moved + 1;
      }
      return Ok(());
    }

    method Push(item: Item) returns (result: Result<(), EnqueueError>)
      modifies this
      ensures var pushed := Pushed(old(intents), item, REQUEST_CAPACITY);
              && result == (if pushed.Some? then Ok(()) else Err(Full))
              && intents == (if pushed.Some? then pushed.value else old(intents))
    {
      if intents != [] {
        var tail := intents[|intents| - 1];
        var merged := Coalesced(tail.intent, item.intent);
        if merged.Some? {
          intents := intents[..|intents| - 1] + [Item(merged.value, tail.ids + item.ids)];
          return Ok(());
        }
      }
      if |intents| == REQUEST_CAPACITY {
        return Err(Full);
      }
      intents := intents + [item];
      return Ok(());
    }
  }
}
