// What the program surface answers on every run: to a lost or outdated surface, to a new size,
// to a replacement and to a request for one.
module SurfaceAnswers {
  import opened Basics
  import opened Surface

  // A recreation for generation `g` is asked for: it is in the slot and its wake-up is due.
  predicate Asked(before: System, after: System, g: nat) {
    && after.requests.slot == Some(g) && after.requests.storing
    && after.requests.published == before.requests.published + [g]
  }

  // With a configured surface: a loss releases it and asks for another one of the same extent
  // and generation; an outdated or suboptimal surface is configured again, and the worker stops
  // if the device refuses; a success or a timeout changes nothing.
  lemma AcquireIsAnswered(steps: seq<Step>, outcome: Acquisition, configured: bool)
    ensures var before := RunFrom(LAUNCHED, steps);
            var state, after := before.lifecycle.state, Next(before, Acquire(outcome, configured));
            before.running && !before.requests.storing ==>
              && (state.Configured? && outcome.Lost? ==>
                    && after == before.(lifecycle := Lifecycle(Recreate(state.extent, state.generation), true),
                                        surface := false, requests := after.requests)
                    && Asked(before, after, state.generation))
              && (state.Configured? && (outcome.Suboptimal? || outcome.Outdated?) ==>
                    if configured then after == before && after.surface else !after.running)
              && (outcome.Success? || outcome.Timeout? || !state.Configured? ==> after == before)
  {
    EveryRunIsTracked(steps);
  }

  // A size is the one in place: the extent of the surface, or none at all while suspended.
  predicate InPlace(state: Presentation, width: nat, height: nat) {
    match state
    case Configured(extent, _) => width > 0 && height > 0 && extent == Extent(width, height)
    case Recreate(extent, _) => width > 0 && height > 0 && extent == Extent(width, height)
    case Suspended(_) => width == 0 || height == 0
    case _ => false
  }

  // A new size becomes the wanted one at the next generation: configured if there is a surface
  // and the device accepts, asked for if there is none; an empty size suspends. Generations that
  // are used up stop the worker, the size in place changes nothing.
  lemma ResizeIsAnswered(steps: seq<Step>, width: nat, height: nat, configured: bool)
    ensures var before := RunFrom(LAUNCHED, steps);
            var after, g := Next(before, Resize(width, height, configured)), before.lifecycle.Generation() + 1;
            var changes := !InPlace(before.lifecycle.state, width, height);
            before.running && !before.requests.storing ==>
              && (!changes ==> after == before)
              && (changes ==>
                    (!after.running <==>
                      || g > 0xFFFF_FFFF_FFFF_FFFF
                      || (width > 0 && height > 0 && before.surface && !configured)))
              && (changes && after.running && (width == 0 || height == 0) ==>
                    after == before.(lifecycle := Lifecycle(Suspended(g), !before.surface)))
              && (changes && after.running && width > 0 && height > 0 && before.surface ==>
                    after == before.(lifecycle := Lifecycle(Configured(Extent(width, height), g), false)))
              && (changes && after.running && width > 0 && height > 0 && !before.surface ==>
                    && after == before.(lifecycle := Lifecycle(Recreate(Extent(width, height), g), true),
                                        requests := after.requests)
                    && Asked(before, after, g))
  {
    EveryRunIsTracked(steps);
    var before := RunFrom(LAUNCHED, steps);
    hide RunFrom;
    if before.running && !before.requests.storing {
      ResizedFacts(before.lifecycle, width, height);
      SizeInPlace(before.lifecycle, width, height);
      hide Resized;
    }
  }

  lemma SizeInPlace(lifecycle: Lifecycle, width: nat, height: nat)
    requires !lifecycle.state.Failed? && !lifecycle.state.Configuring?
    requires lifecycle.state.Recreate? ==> lifecycle.recreationRequired
    ensures var action, g := Resized(lifecycle, width, height).action, lifecycle.Generation() + 1;
            && (action.NoAction? <==> InPlace(lifecycle.state, width, height))
            && (action.Fail? <==> !InPlace(lifecycle.state, width, height) && g > U64_MAX)
            && (action.Suspend? <==> !InPlace(lifecycle.state, width, height) && g <= U64_MAX && (width == 0 || height == 0))
  {
  }

  // A replacement for the wanted generation is installed and configured, or stops the worker if
  // it could not be created or configured; one that came too late makes the worker ask again;
  // one that is not wanted is dropped.
  lemma ServiceIsAnswered(steps: seq<Step>, configured: bool)
    ensures var before := RunFrom(LAUNCHED, steps);
            var state, after := before.lifecycle.state, Next(before, ServiceReplacement(configured));
            before.running && !before.requests.storing && before.replacement.Some? ==>
              var response := before.replacement.value;
              && (state.Recreate? && response.generation == state.generation ==>
                    if response.ok && configured then
                      after == before.(lifecycle := Lifecycle(Configured(state.extent, state.generation), false),
                                       surface := true, replacement := None,
                                       installed := before.installed + [state.generation])
                    else !after.running)
              && (state.Recreate? && response.generation != state.generation ==>
                    && response.generation < state.generation
                    && after == before.(replacement := None, requests := after.requests)
                    && Asked(before, after, state.generation))
              && (!state.Recreate? ==> after == before.(replacement := None))
  {
    EveryRunIsTracked(steps);
  }

  // The main thread answers the request at the coordinator, for exactly its generation: with a
  // surface created now or with the answer it kept. A free channel takes the answer and the
  // request is done; a full one leaves both.
  lemma RequestIsAnswered(steps: seq<Step>, connected: bool, created: bool)
    ensures var before := RunFrom(LAUNCHED, steps);
            var after := Next(before, RecreateIfPending(connected, created));
            var open := before.running && !before.requests.taking && connected;
            && (open && before.coordinator.pending.Some? ==>
                  var g := before.coordinator.pending.value;
                  var answer := if before.coordinator.ready.Some? then before.coordinator.ready.value else Response(g, created);
                  && answer.generation == g
                  && after == (if before.replacement.None?
                               then before.(replacement := Some(answer), coordinator := Coordinator(None, None))
                               else before.(coordinator := Coordinator(Some(g), Some(answer)))))
            && (!open || before.coordinator.pending.None? ==> after == before)
  {
    EveryRunIsTracked(steps);
  }

  // A request that the main thread receives is wanted unless a newer one already is, and an
  // answer kept for an older one is dropped.
  lemma RequestIsReceived(steps: seq<Step>)
    ensures var before := RunFrom(LAUNCHED, steps);
            var after := Next(before, ReceiveRequest);
            before.running && before.requests.taking ==>
              && !after.requests.taking && after.requests.slot.None?
              && after == before.(requests := after.requests, coordinator := after.coordinator)
              && (before.requests.slot.None? ==> after.coordinator == before.coordinator)
              && (before.requests.slot.Some? ==>
                    var g, pending := before.requests.slot.value, before.coordinator.pending;
                    if pending.Some? && pending.value >= g then after.coordinator == before.coordinator
                    else after.coordinator == Coordinator(Some(g), None))
  {
    EveryRunIsTracked(steps);
  }

  // The extent that is wanted or shown is the one of the last new size: no other step changes it.
  lemma OnlyResizeChangesTheExtent(steps: seq<Step>, step: Step)
    requires !step.Resize?
    ensures var before := RunFrom(LAUNCHED, steps);
            var after := Next(before, step);
            before.running && after.running ==>
              && after.lifecycle.Generation() == before.lifecycle.Generation()
              && (before.lifecycle.state.Configured? || before.lifecycle.state.Recreate? ==>
                    && (after.lifecycle.state.Configured? || after.lifecycle.state.Recreate?)
                    && after.lifecycle.state.extent == before.lifecycle.state.extent)
              && (!before.lifecycle.state.Configured? && !before.lifecycle.state.Recreate? ==>
                    after.lifecycle == before.lifecycle)
  {
    EveryRunIsTracked(steps);
  }
}
