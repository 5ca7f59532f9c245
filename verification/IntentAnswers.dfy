// What an edit does to a show, which edits merge, which submissions are refused, and that an
// attached worker gets to every intent that waits.
module IntentAnswers {
  import opened Basics
  import opened Intents
  import opened IntentRun

  // ----- one edit -----

  // The value a field gets: the update's, if it has one, and otherwise the one it had.
  predicate Takes<T(==)>(update: Option<T>, before: T, after: T) {
    && (update.Some? ==> after == update.value)
    && (update.None? ==> after == before)
  }

  predicate Edited(update: StripUpdate, before: Strip, after: Strip) {
    && Takes(update.gain, before.gain, after.gain)
    && Takes(update.balance, before.balance, after.balance)
    && Takes(update.muted, before.muted, after.muted)
    && Takes(update.soloed, before.soloed, after.soloed)
    && Takes(update.followVideo, before.followVideo, after.followVideo)
    && Takes(update.delay, before.delay, after.delay)
  }

  // An edit resolves exactly if the project is synchronized and has the input, and then every
  // field is the update's or the strip's.
  lemma ResolvesExactly(view: Option<map<nat, Strip>>, input: nat, update: StripUpdate)
    ensures var resolved := ResolveStrip(view, input, update);
            && (resolved == Err(NotSynchronized) <==> view.None?)
            && (resolved == Err(InputUnavailable) <==> view.Some? && input !in view.value)
            && (resolved.Ok? <==> view.Some? && input in view.value)
            && (resolved.Ok? ==> Edited(update, view.value[input], resolved.value))
  {
  }

  // An edit of a known input changes that strip, field by field, and nothing else; an edit of an
  // unknown input changes nothing.
  lemma EditsOneStrip<R>(meaning: Meaning<R>, show: Show<R>, input: nat, update: StripUpdate)
    ensures var after := Perform(meaning, SetStrip(input, update), show);
            && after.manual == show.manual && after.rest == show.rest
            && after.strips.Keys == show.strips.Keys
            && (forall other :: other in show.strips && other != input ==> after.strips[other] == show.strips[other])
            && (input in show.strips ==> Edited(update, show.strips[input], after.strips[input]))
            && (input !in show.strips ==> after == show)
  {
  }

  lemma MovesThePosition<R>(meaning: Meaning<R>, show: Show<R>, position: int)
    ensures var after := Perform(meaning, SetManualPosition(position), show);
            after.manual == position && after.strips == show.strips && after.rest == show.rest
  {
  }

  // Two positions merge, two edits of one input merge, and nothing else does.
  lemma MergesExactly(tail: Intent, incoming: Intent)
    ensures Coalesced(tail, incoming).Some? <==>
              || (tail.SetManualPosition? && incoming.SetManualPosition?)
              || (tail.SetStrip? && incoming.SetStrip? && tail.input == incoming.input)
  {
  }

  // ----- many edits -----

  // The intent at `k` is the last that sets the gain of `input`.
  predicate LastGain(intents: seq<Intent>, input: nat, k: nat) {
    && k < |intents| && intents[k].SetStrip? && intents[k].input == input && intents[k].update.gain.Some?
    && forall j :: k < j < |intents| ==>
         !intents[j].Other? && (intents[j].SetStrip? && intents[j].input == input ==> intents[j].update.gain.None?)
  }

  // Whatever went before, the last gain that is set on a known input is the gain it has, as long
  // as only positions and strips are edited behind it.
  lemma {:induction false} LastGainStands<R>(meaning: Meaning<R>, intents: seq<Intent>, show: Show<R>, input: nat, k: nat)
    requires LastGain(intents, input, k)
    requires input in Denote(meaning, intents[..k], show).strips
    ensures var after := Denote(meaning, intents, show);
            input in after.strips && after.strips[input].gain == intents[k].update.gain.value
  {
    var last, front := intents[|intents| - 1], intents[..|intents| - 1];
    if k < |front| {
      assert front[..k] == intents[..k];
      assert forall j :: 0 <= j < |front| ==> front[j] == intents[j];
      LastGainStands(meaning, front, show, input, k);
    } else {
      assert front == intents[..k];
    }
    var before := Denote(meaning, front, show);
    hide Denote;
    if last.SetStrip? {
      EditsOneStrip(meaning, before, last.input, last.update);
    } else {
      MovesThePosition(meaning, before, last.position);
    }
    hide Perform;
    assert Denote(meaning, intents, show) == Perform(meaning, last, before) by {
      DenoteLast(meaning, front, last, show);
      assert front + [last] == intents;
    }
  }

  // ----- submissions -----

  predicate Merges(items: seq<Item>, intent: Intent) {
    items != [] && Coalesced(items[|items| - 1].intent, intent).Some?
  }

  // A push merges into the newest item whenever the two merge, whatever room there is; otherwise
  // it appends, unless the capacity is used up.
  lemma PushesExactly(queue: seq<Item>, item: Item, capacity: nat)
    ensures var pushed, last := Pushed(queue, item, capacity), |queue| - 1;
            if Merges(queue, item.intent) then
              && pushed.Some? && |pushed.value| == |queue| && pushed.value[..last] == queue[..last]
              && pushed.value[last].ids == queue[last].ids + item.ids
              && Coalesced(queue[last].intent, item.intent) == Some(pushed.value[last].intent)
            else if |queue| == capacity then pushed.None?
            else pushed == Some(queue + [item])
  {
  }

  // On every run a submission is refused exactly if the window has lost its worker, or finds it
  // lost, or the 16 places before the channel are taken and the newest of them does not merge.
  lemma RefusesExactly(steps: seq<Step>, intent: Intent)
    ensures var studio := RunOf(steps);
            var after := Next(studio, Submit(intent));
            && (|studio.submitted| in after.rejected <==>
                  || !studio.attached
                  || (studio.pending == [] && !studio.alive)
                  || (|studio.pending| == 16 && !Merges(studio.pending, intent)))
            && (after.attached <==> studio.attached && (studio.pending != [] || studio.alive))
            && after.submitted == studio.submitted + [intent]
  {
    var studio := RunOf(steps);
    EverySubmissionIsInOnePlace(steps);
    RejectedAreOld(steps);
  }

  lemma RejectedAreOld(steps: seq<Step>)
    ensures |RunOf(steps).submitted| !in RunOf(steps).rejected
  {
    EveryRunIsAccounted((tag: nat, show: Show<int>) => show, steps);
  }

  // A flush leaves nothing behind that the channel could still take, and a lost worker refuses
  // all that was pending.
  lemma FlushesExactly(steps: seq<Step>)
    ensures var studio := RunOf(steps);
            var after := Next(studio, Flush);
            && (studio.alive ==>
                  && after.pending == studio.pending[|studio.pending| - |after.pending|..]
                  && (after.pending == [] || |after.channel| >= 16)
                  && after.rejected == studio.rejected && after.attached == studio.attached)
            && (!studio.alive && studio.pending != [] ==>
                  && after.pending == [] && !after.attached && after.channel == studio.channel
                  && after.rejected == studio.rejected + IdSet(studio.pending))
  {
    hide IdSet;
  }

  // A busy worker defers a request unless 16 are deferred already and the newest does not merge.
  lemma DefersExactly(steps: seq<Step>)
    ensures var studio := RunOf(steps);
            var after := Next(studio, Defer);
            studio.alive && studio.channel != [] ==>
              && after.channel == studio.channel[1..]
              && (studio.channel[0].Stop? ==> !after.alive && after.rejected == studio.rejected)
              && (studio.channel[0].Ask? ==>
                    && after.alive
                    && after.rejected ==
                         (if |studio.deferred| == 16 && !Merges(studio.deferred, studio.channel[0].item.intent)
                          then studio.rejected + IdSet([studio.channel[0].item]) else studio.rejected))
  {
    EverySubmissionIsInOnePlace(steps);
    hide IdSet;
  }

  // ----- every intent is handled -----

  // What an idle worker and an idle window do next.
  function Turn(studio: Studio): (step: Step) {
    if studio.deferred != [] then HandleDeferred else if studio.channel != [] then HandleNext else Flush
  }

  predicate Working(studio: Studio) {
    studio.alive && forall i :: 0 <= i < |studio.channel| ==> studio.channel[i].Ask?
  }

  function Left(studio: Studio): nat { |studio.deferred| + |studio.channel| + 2 * |studio.pending| }

  lemma TurnHandlesMore(studio: Studio)
    requires Working(studio) && Left(studio) > 0
    ensures var after := Next(studio, Turn(studio));
            && Working(after) && Left(after) < Left(studio)
            && Everything(after) == Everything(studio) && after.rejected == studio.rejected
  {
    hide Everything;
    if Turn(studio).Flush? {
      FlushingMoves(studio);
    } else {
      MovingStep(studio, Turn(studio));
    }
  }

  function Finished(studio: Studio): (after: Studio)
    requires Working(studio)
    decreases Left(studio)
  {
    if Left(studio) == 0 then studio
    else
      TurnHandlesMore(studio);
      Finished(Next(studio, Turn(studio)))
  }

  // From any state with a worker that was not told to stop, taking turns handles everything that
  // waits, in order, and refuses none of it.
  lemma {:induction false} EveryIntentIsHandled(studio: Studio)
    requires Working(studio)
    ensures var after := Finished(studio);
            && after.pending == [] && after.channel == [] && after.deferred == []
            && after.handled == Everything(studio) && after.rejected == studio.rejected
    decreases Left(studio)
  {
    if Left(studio) == 0 {
      assert Waiting([]) == [];
      assert studio.handled + [] + [] + [] == studio.handled;
    } else {
      TurnHandlesMore(studio);
      EveryIntentIsHandled(Next(studio, Turn(studio)));
      hide Next, Everything;
    }
  }
}
