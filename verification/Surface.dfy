// The program surface: the presentation lifecycle on the worker thread, the coordinator on the
// main thread, and the handshake that replaces a lost surface
// (apps/freemixd/src/program_surface.rs, crates/gpu/fm-gpu/src/presentation.rs).
module Surface {
  import opened Basics
  import opened Mailbox

  // ----- the presentation lifecycle -----

  datatype Extent = Extent(width: nat, height: nat)

  datatype Presentation =
    | Unconfigured
    | Suspended(generation: nat)
    | Configuring(extent: Extent, generation: nat)
    | Configured(extent: Extent, generation: nat)
    | Recreate(extent: Extent, generation: nat)
    | Failed

  datatype Action = NoAction | Suspend | Configure(generation: nat) | RecreateSurface(generation: nat) | Fail

  datatype Lifecycle = Lifecycle(state: Presentation, recreationRequired: bool) {
    function Generation(): nat {
      if state.Unconfigured? || state.Failed? then 0 else state.generation
    }
  }

  datatype Reaction = Reaction(lifecycle: Lifecycle, action: Action)

  predicate Unchanged(state: Presentation, width: nat, height: nat) {
    if width == 0 || height == 0 then state.Suspended?
    else (state.Configured? || state.Configuring? || state.Recreate?) && state.extent == Extent(width, height)
  }

  // A zero dimension suspends; a new size takes the next generation.
  function Resized(lifecycle: Lifecycle, width: nat, height: nat): (reaction: Reaction) {
    var state := lifecycle.state;
    if state.Failed? then Reaction(lifecycle, Fail)
    else if Unchanged(state, width, height) then Reaction(lifecycle, NoAction)
    else if lifecycle.Generation() >= U64_MAX then Reaction(Lifecycle(Failed, false), Fail)
    else
      var generation := lifecycle.Generation() + 1;
      if width == 0 || height == 0 then
        Reaction(Lifecycle(Suspended(generation), lifecycle.recreationRequired || state.Recreate?), Suspend)
      else if state.Recreate? || (state.Suspended? && lifecycle.recreationRequired) then
        Reaction(Lifecycle(Recreate(Extent(width, height), generation), true), RecreateSurface(generation))
      else
        Reaction(Lifecycle(Configuring(Extent(width, height), generation), false), Configure(generation))
  }

  datatype Acquisition = Success | Suboptimal | Timeout | Outdated | Lost

  function Acquired(lifecycle: Lifecycle, outcome: Acquisition): (reaction: Reaction) {
    match lifecycle.state
    case Configured(extent, generation) =>
      if outcome.Suboptimal? || outcome.Outdated? then
        Reaction(lifecycle.(state := Configuring(extent, generation)), Configure(generation))
      else if outcome.Lost? then
        Reaction(Lifecycle(Recreate(extent, generation), true), RecreateSurface(generation))
      else Reaction(lifecycle, NoAction)
    case Failed => Reaction(lifecycle, Fail)
    case _ => Reaction(lifecycle, NoAction)
  }

  function FinishedRecreation(lifecycle: Lifecycle, generation: nat, succeeded: bool): (reaction: Reaction) {
    match lifecycle.state
    case Recreate(extent, expected) =>
      if generation != expected then Reaction(lifecycle, NoAction)
      else if succeeded then Reaction(Lifecycle(Configuring(extent, generation), false), Configure(generation))
      else Reaction(Lifecycle(Failed, false), Fail)
    case Failed => Reaction(lifecycle, Fail)
    case _ => Reaction(lifecycle, NoAction)
  }

  function FinishedConfiguration(lifecycle: Lifecycle, generation: nat, succeeded: bool): (after: Lifecycle) {
    match lifecycle.state
    case Configuring(extent, expected) =>
      if generation != expected then lifecycle
      else if succeeded then lifecycle.(state := Configured(extent, generation))
      else Lifecycle(Failed, false)
    case _ => lifecycle
  }

  // ----- the coordinator on the main thread -----

  // A finished surface, or the error of creating one, for the generation that asked for it.
  datatype Response = Response(generation: nat, ok: bool)

  datatype Coordinator = Coordinator(pending: Option<nat>, ready: Option<Response>) {
    function Requested(generation: nat): (after: Coordinator) {
      var wanted := if pending.None? || generation > pending.value then generation else pending.value;
      Coordinator(Some(wanted), if ready.Some? && ready.value.generation != wanted then None else ready)
    }

    function Prepared(ok: bool): (after: Coordinator) {
      if ready.None? && pending.Some? then this.(ready := Some(Response(pending.value, ok))) else this
    }

    function Pressed(response: Response): (after: Coordinator) {
      if pending == Some(response.generation) then this.(ready := Some(response)) else this
    }

    function Sent(generation: nat): (after: Coordinator) {
      if pending == Some(generation) then this.(pending := None) else this
    }

    // A prepared response always answers the pending request.
    predicate Valid() { ready.Some? ==> pending == Some(ready.value.generation) }
  }

  class RecreationCoordinator {
    var pending: Option<nat>
    var ready: Option<Response>

    ghost function View(): (coordinator: Coordinator)
      reads this
    {
      Coordinator(pending, ready)
    }

    constructor ()
      ensures View() == Coordinator(None, None)
    {
      pending, ready := None, None;
    }

    method Request(generation: nat)
      modifies this
      ensures View() == old(View()).Requested(generation)
      ensures old(View()).Valid() ==> View().Valid()
      ensures pending.Some? && pending.value >= generation
    {
      if pending.None? || generation > pending.value {
        pending := Some(generation);
      }
      if ready.Some? && Some(ready.value.generation) != pending {
        ready := None;
      }
    }

    // Creates a surface for the pending request, unless one is ready, and takes it.
    method PrepareAndTake(ok: bool) returns (response: Option<Response>)
      modifies this
      ensures response == old(View()).Prepared(ok).ready
      ensures View() == old(View()).Prepared(ok).(ready := None)
      ensures old(View()).Valid() && response.Some? ==> pending == Some(response.value.generation)
    {
      if ready.None? && pending.Some? {
        ready := Some(Response(pending.value, ok));
      }
      response := ready;
      ready := None;
    }

    method Pressure(response: Response)
      modifies this
      ensures View() == old(View()).Pressed(response)
      ensures old(View()).Valid() ==> View().Valid()
    {
      if pending == Some(response.generation) {
        ready := Some(response);
      }
    }

    method Send(generation: nat)
      modifies this
      ensures View() == old(View()).Sent(generation)
      ensures pending != Some(generation)
    {
      if pending == Some(generation) {
        pending := None;
      }
    }
  }

  datatype Disposition = Install | Discard | DiscardAndRetry(generation: nat)

  function DispositionOf(state: Presentation, response: nat): (disposition: Disposition) {
    if state.Recreate? && state.generation == response then Install
    else if state.Recreate? && state.generation > response then DiscardAndRetry(state.generation)
    else Discard
  }

  // ----- the two threads -----

  // `requests` carries the generations to recreate; `replacement` is the one-place channel back.
  datatype System = System(
    lifecycle: Lifecycle,
    surface: bool,
    running: bool,
    requests: Mailbox<nat>,
    coordinator: Coordinator,
    replacement: Option<Response>,
    installed: seq<nat>)
  {
    function Stopped(): System { this.(running := false) }
  }

  const LAUNCHED := System(Lifecycle(Unconfigured, false), true, true, EmptyMailbox(), Coordinator(None, None), None, [])

  datatype Step =
    | Resize(width: nat, height: nat, configured: bool)
    | Acquire(outcome: Acquisition, configured: bool)
    | ServiceReplacement(configured: bool)
    | FinishSend
    | LookForRequest
    | ReceiveRequest
    | RecreateIfPending(connected: bool, created: bool)

  // The worker obeys an action; `configured` is whether the device accepts the configuration.
  // A recreation request is only stored here: its wake-up is a step of its own.
  function Applied(system: System, action: Action, configured: bool): (after: System) {
    match action
    case Configure(generation) =>
      if !system.surface || !configured then
        system.(lifecycle := FinishedConfiguration(system.lifecycle, generation, false)).Stopped()
      else system.(lifecycle := FinishedConfiguration(system.lifecycle, generation, true))
    case RecreateSurface(generation) =>
      system.(surface := false, requests := Stored(system.requests, generation))
    case Fail => system.Stopped()
    case _ => system
  }

  function Reacted(system: System, reaction: Reaction, configured: bool): (after: System) {
    Applied(system.(lifecycle := reaction.lifecycle), reaction.action, configured)
  }

  function Serviced(system: System, configured: bool): (after: System)
    requires system.replacement.Some?
  {
    var response := system.replacement.value;
    var taken := system.(replacement := None);
    match DispositionOf(system.lifecycle.state, response.generation)
    case Discard => taken
    case DiscardAndRetry(generation) => taken.(requests := Stored(taken.requests, generation))
    case Install =>
      var finished := FinishedRecreation(system.lifecycle, response.generation, response.ok);
      if response.ok then
        Reacted(taken.(surface := true, installed := system.installed + [response.generation]), finished, configured)
      else taken.(lifecycle := finished.lifecycle).Stopped()
  }

  function Received(system: System): (after: System) {
    var taken := system.(requests := ValueTaken(system.requests));
    if system.requests.slot.Some?
    then taken.(coordinator := system.coordinator.Requested(system.requests.slot.value)) else taken
  }

  function Recreated(system: System, created: bool): (after: System)
    requires system.coordinator.pending.Some?
  {
    var prepared := system.coordinator.Prepared(created);
    var response := prepared.ready.value;
    var taken := prepared.(ready := None);
    if system.replacement.None? then
      system.(replacement := Some(response), coordinator := taken.Sent(response.generation))
    else system.(coordinator := taken.Pressed(response))
  }

  // The worker owns the first four steps and cannot go on while a wake-up is outstanding; the
  // main thread owns the rest and cannot go on between taking a token and taking the value.
  function Next(system: System, step: Step): (after: System) {
    if !system.running then system
    else
      match step
      case Resize(width, height, configured) =>
        if system.requests.storing then system
        else Reacted(system, Resized(system.lifecycle, width, height), configured)
      case Acquire(outcome, configured) =>
        if system.requests.storing || !system.surface then system
        else Reacted(system, Acquired(system.lifecycle, outcome), configured)
      case ServiceReplacement(configured) =>
        if system.requests.storing || system.replacement.None? then system else Serviced(system, configured)
      case FinishSend =>
        if system.requests.storing then system.(requests := Notified(system.requests)) else system
      case LookForRequest =>
        if system.requests.taking then system else system.(requests := TokenTaken(system.requests))
      case ReceiveRequest => if system.requests.taking then Received(system) else system
      case RecreateIfPending(connected, created) =>
        if system.requests.taking || !connected || system.coordinator.pending.None? then system
        else Recreated(system, created)
  }

  function RunFrom(system: System, steps: seq<Step>): (after: System) {
    if steps == [] then system else Next(RunFrom(system, steps[..|steps| - 1]), steps[|steps| - 1])
  }

  // ----- the invariant -----

  // Something for generation `g` is on its way: the request in the slot, the request at the
  // coordinator, or the response in the channel.
  predicate OnItsWay(system: System, g: nat) {
    || system.requests.slot == Some(g)
    || system.coordinator.pending == Some(g)
    || (system.replacement.Some? && system.replacement.value.generation == g)
  }

  predicate NothingExceeds(system: System, g: nat) {
    && (system.requests.slot.Some? ==> system.requests.slot.value <= g)
    && (system.coordinator.pending.Some? ==> system.coordinator.pending.value <= g)
    && (system.coordinator.ready.Some? ==> system.coordinator.ready.value.generation <= g)
    && (system.replacement.Some? ==> system.replacement.value.generation <= g)
  }

  ghost predicate Tracked(system: System) {
    && Announced(system.requests)
    && (system.requests.slot.Some? ==> system.requests.published != [])
    && system.coordinator.Valid()
    && (system.running ==>
          && !system.lifecycle.state.Failed?
          && !system.lifecycle.state.Configuring?
          && NothingExceeds(system, system.lifecycle.Generation())
          && (system.surface <==> !system.lifecycle.recreationRequired)
          && (system.lifecycle.state.Configured? || system.lifecycle.state.Unconfigured? ==>
                !system.lifecycle.recreationRequired)
          && (system.lifecycle.state.Recreate? ==>
                system.lifecycle.recreationRequired && OnItsWay(system, system.lifecycle.state.generation)))
  }

  lemma ResizeIsTracked(system: System, width: nat, height: nat, configured: bool)
    requires Tracked(system) && system.running && !system.requests.storing
    ensures Tracked(Reacted(system, Resized(system.lifecycle, width, height), configured))
  {
    var reaction := Resized(system.lifecycle, width, height);
    ResizedFacts(system.lifecycle, width, height);
    hide Resized;
  }

  // The four ways a resize goes.
  lemma ResizedFacts(lifecycle: Lifecycle, width: nat, height: nat)
    requires !lifecycle.state.Failed? && !lifecycle.state.Configuring?
    requires lifecycle.state.Recreate? ==> lifecycle.recreationRequired
    requires lifecycle.state.Configured? || lifecycle.state.Unconfigured? ==> !lifecycle.recreationRequired
    ensures var reaction := Resized(lifecycle, width, height);
            var g := lifecycle.Generation() + 1;
            && (reaction.action.NoAction? ==> reaction.lifecycle == lifecycle)
            && (reaction.action.Suspend? ==>
                  reaction.lifecycle == Lifecycle(Suspended(g), lifecycle.recreationRequired))
            && (reaction.action.RecreateSurface? ==>
                  && reaction.action.generation == g && lifecycle.recreationRequired
                  && reaction.lifecycle == Lifecycle(Recreate(Extent(width, height), g), true))
            && (reaction.action.Configure? ==>
                  && reaction.action.generation == g && !lifecycle.recreationRequired
                  && reaction.lifecycle == Lifecycle(Configuring(Extent(width, height), g), false))
  {
  }

  lemma AcquireIsTracked(system: System, outcome: Acquisition, configured: bool)
    requires Tracked(system) && system.running && !system.requests.storing && system.surface
    ensures Tracked(Reacted(system, Acquired(system.lifecycle, outcome), configured))
  {
  }

  lemma ServiceIsTracked(system: System, configured: bool)
    requires Tracked(system) && system.running && !system.requests.storing && system.replacement.Some?
    ensures Tracked(Serviced(system, configured))
  {
  }

  lemma MainStepIsTracked(system: System, step: Step)
    requires Tracked(system) && system.running
    requires step.FinishSend? || step.LookForRequest? || step.ReceiveRequest? || step.RecreateIfPending?
    ensures Tracked(Next(system, step))
  {
  }

  lemma NextIsTracked(system: System, step: Step)
    requires Tracked(system)
    ensures Tracked(Next(system, step))
  {
    hide Tracked, Reacted, Resized, Acquired, Serviced;
    if system.running {
      match step
      case Resize(width, height, configured) =>
        if !system.requests.storing { ResizeIsTracked(system, width, height, configured); }
      case Acquire(outcome, configured) =>
        if !system.requests.storing && system.surface { AcquireIsTracked(system, outcome, configured); }
      case ServiceReplacement(configured) =>
        if !system.requests.storing && system.replacement.Some? { ServiceIsTracked(system, configured); }
      case _ =>
        hide Next;
        MainStepIsTracked(system, step);
    }
  }

  // Generations never go back while the worker runs.
  lemma GenerationsGrow(system: System, step: Step)
    requires Tracked(system) && Next(system, step).running
    ensures system.lifecycle.Generation() <= Next(system, step).lifecycle.Generation()
  {
  }

  lemma {:induction false} EveryRunIsTracked(steps: seq<Step>)
    ensures Tracked(RunFrom(LAUNCHED, steps))
  {
    if steps != [] {
      EveryRunIsTracked(steps[..|steps| - 1]);
      NextIsTracked(RunFrom(LAUNCHED, steps[..|steps| - 1]), steps[|steps| - 1]);
    }
  }

  // Whenever the worker waits for a surface of generation g, a request or response for exactly
  // g is in the slot, at the coordinator or in the channel, nothing there exceeds g, and a
  // request in the slot has its wake-up.
  lemma NoRecreationIsLost(steps: seq<Step>)
    ensures var system := RunFrom(LAUNCHED, steps);
            system.running && system.lifecycle.state.Recreate? ==>
              && OnItsWay(system, system.lifecycle.state.generation)
              && NothingExceeds(system, system.lifecycle.state.generation)
              && Announced(system.requests)
              && !system.surface
  {
    EveryRunIsTracked(steps);
  }

  // On every run a step installs at most one surface, and only one made for the generation
  // that the worker wants at that moment.
  lemma OnlyTheWantedIsInstalled(steps: seq<Step>, step: Step)
    ensures var before := RunFrom(LAUNCHED, steps);
            var after := Next(before, step);
            || after.installed == before.installed
            || (before.lifecycle.state.Recreate? && before.replacement.Some? && before.replacement.value.ok
                && before.replacement.value.generation == before.lifecycle.state.generation
                && after.installed == before.installed + [before.lifecycle.state.generation])
  {
    EveryRunIsTracked(steps);
  }

  // On every run the worker never finds itself without a surface to configure: it stops only
  // when the device refuses a configuration, a replacement could not be created, or the
  // generations are used up.
  lemma OnlyTheDeviceStopsTheWorker(steps: seq<Step>, step: Step)
    ensures var before := RunFrom(LAUNCHED, steps);
            before.running && !Next(before, step).running ==>
              || (step.Resize? && before.lifecycle.Generation() >= U64_MAX)
              || ((step.Resize? || step.Acquire? || step.ServiceReplacement?) && !step.configured)
              || (step.ServiceReplacement? && before.replacement.Some? && !before.replacement.value.ok)
  {
    EveryRunIsTracked(steps);
  }

  // ----- a lost surface comes back -----

  // Both threads finish what they began, the main thread takes the request and answers, the
  // worker looks, and once more in case an outdated answer was in the way.
  function Settled(system: System): (after: System) {
    var taken := Next(Next(Next(Next(system, FinishSend), ReceiveRequest), LookForRequest), ReceiveRequest);
    Answered(Next(Answered(taken), FinishSend))
  }

  function Answered(system: System): (after: System) {
    Next(Next(system, RecreateIfPending(true, true)), ServiceReplacement(true))
  }

  // The request has reached the coordinator or its answer the channel.
  ghost predicate Collected(system: System) {
    && Tracked(system) && !system.requests.storing && !system.requests.taking && system.requests.slot.None?
  }

  lemma RequestIsCollected(system: System)
    requires Tracked(system) && system.running
    ensures var taken := Next(Next(Next(Next(system, FinishSend), ReceiveRequest), LookForRequest), ReceiveRequest);
            && Collected(taken) && taken.running && taken.lifecycle == system.lifecycle
            && taken.replacement == system.replacement && taken.installed == system.installed
            && (taken.coordinator.ready.Some? ==> taken.coordinator.ready == system.coordinator.ready)
  {
    var sent := Next(system, FinishSend);
    SendingFinishes(system);
    var first := Next(sent, ReceiveRequest);
    ReceivingFinishes(sent);
    var looked := Next(first, LookForRequest);
    LookingTakesTheToken(first);
    ReceivingFinishes(looked);
    hide Tracked, Next;
  }

  lemma SendingFinishes(system: System)
    requires Tracked(system) && system.running
    ensures var after := Next(system, FinishSend);
            && Tracked(after) && after == system.(requests := after.requests) && !after.requests.storing
  {
    NextIsTracked(system, FinishSend);
    hide Tracked;
  }

  lemma ReceivingFinishes(system: System)
    requires Tracked(system) && system.running && !system.requests.storing
    ensures var after := Next(system, ReceiveRequest);
            && Tracked(after) && after == system.(requests := after.requests, coordinator := after.coordinator)
            && !after.requests.storing && !after.requests.taking
            && (system.requests.taking || system.requests.slot.None? ==> after.requests.slot.None?)
            && (!system.requests.taking ==> after == system)
            && (after.coordinator.ready.Some? ==> after.coordinator.ready == system.coordinator.ready)
  {
    NextIsTracked(system, ReceiveRequest);
    hide Tracked;
  }

  lemma LookingTakesTheToken(system: System)
    requires Tracked(system) && system.running && !system.requests.storing && !system.requests.taking
    ensures var after := Next(system, LookForRequest);
            && Tracked(after) && after == system.(requests := after.requests) && !after.requests.storing
            && (after.requests.slot.Some? ==> after.requests.taking)
  {
    NextIsTracked(system, LookForRequest);
  }

  predicate NoFailureWaits(system: System) {
    && (system.replacement.Some? ==> system.replacement.value.ok)
    && (system.coordinator.ready.Some? ==> system.coordinator.ready.value.ok)
  }

  // One answer installs the wanted surface, or clears an outdated one out of the way, or stops
  // the worker because the wanted one could not be created.
  lemma AnswerInstallsOrClears(system: System)
    requires Tracked(system) && system.running && !system.requests.storing && !system.requests.taking
    requires system.lifecycle.state.Recreate?
    requires system.coordinator.pending == Some(system.lifecycle.state.generation)
             || (system.replacement.Some? && system.replacement.value.generation == system.lifecycle.state.generation)
    ensures var state, after := system.lifecycle.state, Answered(system);
            && Tracked(after) && !after.requests.taking
            && (NoFailureWaits(system) ==> after.running && NoFailureWaits(after))
            && (after.running ==>
                  || (after.lifecycle.state == Configured(state.extent, state.generation)
                      && after.installed == system.installed + [state.generation] && !after.requests.storing)
                  || (after.lifecycle == system.lifecycle && after.replacement.None? && system.replacement.Some?
                      && after.installed == system.installed
                      && after.coordinator.pending == Some(state.generation)))
  {
    var asked := Next(system, RecreateIfPending(true, true));
    NextIsTracked(system, RecreateIfPending(true, true));
    NextIsTracked(asked, ServiceReplacement(true));
    AskingFillsTheChannel(system);
    hide Tracked, Recreated;
    ServingInstallsOrClears(asked);
  }

  // After the main thread's turn a response waits: the wanted one, or an outdated one while the
  // wanted request is still pending.
  lemma AskingFillsTheChannel(system: System)
    requires Tracked(system) && system.running && !system.requests.taking
    requires system.lifecycle.state.Recreate?
    requires system.coordinator.pending == Some(system.lifecycle.state.generation)
             || (system.replacement.Some? && system.replacement.value.generation == system.lifecycle.state.generation)
    ensures var g, asked := system.lifecycle.state.generation, Next(system, RecreateIfPending(true, true));
            && asked == system.(replacement := asked.replacement, coordinator := asked.coordinator)
            && asked.replacement.Some? && asked.replacement.value.generation <= g
            && (asked.replacement.value.generation < g ==>
                  system.replacement.Some? && asked.coordinator.pending == Some(g))
            && (NoFailureWaits(system) ==> NoFailureWaits(asked))
  {
  }

  lemma ServingInstallsOrClears(asked: System)
    requires asked.running && !asked.requests.storing && asked.lifecycle.state.Recreate? && asked.replacement.Some?
    requires asked.replacement.value.generation <= asked.lifecycle.state.generation
    ensures var state, response, after := asked.lifecycle.state, asked.replacement.value, Next(asked, ServiceReplacement(true));
            && after.coordinator == asked.coordinator && after.requests.taking == asked.requests.taking
            && after.replacement.None?
            && (NoFailureWaits(asked) ==> after.running && NoFailureWaits(after))
            && (response.generation < state.generation ==>
                  after.running && after.lifecycle == asked.lifecycle && after.installed == asked.installed)
            && (response.generation == state.generation && after.running ==>
                  && after.lifecycle.state == Configured(state.extent, state.generation)
                  && after.installed == asked.installed + [state.generation] && !after.requests.storing)
  {
  }

  // Once installed, a late answer to a repeated request is discarded.
  lemma LateAnswerIsDiscarded(system: System)
    requires Tracked(system) && system.running && system.lifecycle.state.Configured?
    ensures Answered(system).lifecycle == system.lifecycle && Answered(system).installed == system.installed
    ensures Answered(system).running && Answered(system).surface == system.surface
  {
  }

  lemma StoppedStays(system: System)
    requires !system.running
    ensures Next(system, FinishSend) == system && Answered(system) == system
  {
  }

  // From every reachable state in which the worker waits for a surface, a fixed finite sequence
  // of steps installs exactly the generation it wants, unless the answer that was already
  // waiting for it is a failure, which stops the worker.
  lemma LostSurfaceComesBack(steps: seq<Step>)
    requires var system := RunFrom(LAUNCHED, steps);
             system.running && system.lifecycle.state.Recreate?
    ensures var system := RunFrom(LAUNCHED, steps);
            var state := system.lifecycle.state;
            var after := Settled(system);
            && (NoFailureWaits(system) ==> after.running)
            && (after.running ==>
                  && after.surface
                  && after.lifecycle.state == Configured(state.extent, state.generation)
                  && after.installed == system.installed + [state.generation])
  {
    var system := RunFrom(LAUNCHED, steps);
    EveryRunIsTracked(steps);
    RequestIsCollected(system);
    var taken := Next(Next(Next(Next(system, FinishSend), ReceiveRequest), LookForRequest), ReceiveRequest);
    AnswerInstallsOrClears(taken);
    var first := Answered(taken);
    var sent := Next(first, FinishSend);
    NextIsTracked(first, FinishSend);
    hide Answered;
    if !first.running {
      StoppedStays(first);
    } else if first.lifecycle.state.Configured? {
      LateAnswerIsDiscarded(sent);
    } else {
      AnswerInstallsOrClears(sent);
    }
  }
}
