// Every run of one peer: handshakes, commands, live events, slot replacements, short writes,
// shutdown, in any order the scheduler loop allows.
module PeerRun {
  import opened Basics
  import opened Wire
  import opened Peer

  // A full snapshot, or the retained events after a resume cursor.
  datatype Sync = SnapshotSync | ResumeSync(cursor: nat)

  datatype Step =
    | Refuse(message: Message)
    | Establish(sync: Sync, studio: bool, admitted: bool)
    | Execute(accepted: bool, admitted: bool)
    | Answer(tag: nat, admitted: bool)
    | Publish(durable: bool)
    | Feed(admitted: bool)
    | Drain(admitted: bool)
    | Write(first: WriteAnswer, second: WriteAnswer, admitted: bool, web: WebAnswer)
    | BecomeActive
    | ReplaceMeter(bytes: seq<byte>)
    | ReplaceStatus(bytes: seq<byte>)
    | Shutdown(replace: bool, admitted: bool)
    | Close

  // The peer and what an observer saw of it: the bytes on the wire, the whole records among
  // them, the queued messages delivered in full; the initial sync it was promised and the
  // revision that sync starts after; the control plane's durable revision; and how many of the
  // peer's commands were executed, which numbers them whatever ids the client gave them.
  datatype Trace = Trace(
    peer: PeerState,
    open: bool,
    wire: seq<byte>,
    records: seq<seq<byte>>,
    delivered: seq<Message>,
    sync: seq<Message>,
    base: nat,
    revision: nat,
    executed: nat)
  {
    function Closed(): Trace { this.(open := false) }

    function With(next: Option<PeerState>): Trace {
      if next.Some? then this.(peer := next.value) else Closed()
    }
  }

  function EventsAfter(cursor: nat, revision: nat): (events: seq<Message>)
    requires cursor <= revision
    ensures |events| == revision - cursor
  {
    seq(revision - cursor, i requires 0 <= i < revision - cursor => Event(cursor + 1 + i, None))
  }

  function Published(env: Environment, subscription: Option<Subscription>, message: Message): Option<Subscription> {
    if subscription.None? || subscription.value.detached then subscription
    else if |subscription.value.queue| < env.subscriberQueue then
      Some(subscription.value.(queue := subscription.value.queue + [message]))
    else Some(subscription.value.(detached := true))
  }

  // The one message of a connection that is turned away.
  function Refusing(env: Environment, trace: Trace, message: Message): (after: Trace) {
    match Queued(env, trace.peer, message, RawAccounting, false)
    case None => trace.Closed()
    case Some(queued) => trace.(peer := queued.(phase := Closing))
  }

  function Establishing(env: Environment, trace: Trace, sync: Sync, studio: bool, admitted: bool): (after: Trace) {
    // A cursor ahead of the log falls back to a snapshot.
    var resumes := sync.ResumeSync? && sync.cursor <= trace.revision;
    var messages := if resumes then EventsAfter(sync.cursor, trace.revision) else [Snapshot(trace.revision)];
    if |messages| > (if env.syncLimit > 1 then env.syncLimit else 1) then trace.Closed()
    else
      var prepared := trace.peer.(
        initialSync := messages,
        session := Some(NEW_SESSION),
        subscription := Some(Subscription([], false)),
        lossy := trace.peer.transport.Raw? && studio);
      match Queued(env, prepared, HandshakeResponse(true), SessionAccounting, admitted)
      case None => trace.Closed()
      case Some(peer) =>
        trace.(peer := peer.(phase := Syncing), sync := messages,
               base := if resumes then sync.cursor else trace.revision)
  }

  // The command is executed and its event published before its result is queued.
  function Executing(env: Environment, trace: Trace, command: nat, accepted: bool, admitted: bool): (after: Trace) {
    var revision := if accepted then trace.revision + 1 else trace.revision;
    var published :=
      if accepted then
        trace.peer.(subscription := Published(env, trace.peer.subscription, Event(revision, Some(command))))
      else trace.peer;
    trace.(peer := published, revision := revision)
      .With(Queued(env, published, CommandResult(command), SessionAccounting, admitted))
  }

  // Every execution takes the next number, so no two results or events share one.
  function ExecutingNext(env: Environment, trace: Trace, accepted: bool, admitted: bool): (after: Trace) {
    Executing(env, trace, trace.executed, accepted, admitted).(executed := trace.executed + 1)
  }

  function Publishing(env: Environment, trace: Trace, durable: bool): (after: Trace) {
    var revision := if durable then trace.revision + 1 else trace.revision;
    var message := if durable then Event(revision, None) else RuntimeEvent(revision);
    trace.(peer := trace.peer.(subscription := Published(env, trace.peer.subscription, message)), revision := revision)
  }

  function Draining(env: Environment, trace: Trace, admitted: bool): (after: Trace) {
    if trace.peer.subscription.None? || |trace.peer.outbound| >= OUTBOUND_CAPACITY then trace
    else
      var subscription := trace.peer.subscription.value;
      if subscription.queue == [] then (if subscription.detached then trace.Closed() else trace)
      else
        var popped := trace.peer.(subscription := Some(subscription.(queue := subscription.queue[1..])));
        trace.(peer := popped).With(Queued(env, popped, subscription.queue[0], SessionAccounting, admitted))
  }

  function Writing(trace: Trace, first: WriteAnswer, second: WriteAnswer, admitted: bool, web: WebAnswer)
    : (after: Trace)
    requires WriteReady(trace.peer)
  {
    var pass := if trace.peer.transport.Raw? then WriteRaw(trace.peer, first, second)
                else WriteWeb(trace.peer, admitted, web);
    var written := trace.(peer := pass.peer, wire := trace.wire + pass.bytes,
                          records := trace.records + pass.records, delivered := trace.delivered + pass.delivered);
    if pass.outcome.WriteFailed? || (pass.peer.phase.Closing? && pass.peer.outbound == [])
    then written.Closed() else written
  }

  function Trimmed(peer: PeerState, replace: bool): (trimmed: PeerState) {
    var quiet := peer.(meter := peer.meter.DiscardUnstarted(), status := peer.status.DiscardUnstarted());
    var kept := if replace then ReplacedForShutdown(quiet) else PreservedForShutdown(quiet);
    kept.(initialSync := [])
  }

  function ShuttingDown(env: Environment, trace: Trace, replace: bool, admitted: bool): (after: Trace) {
    if trace.peer.session.None? || !trace.peer.handshakeWritten then trace.Closed()
    else
      var trimmed := Trimmed(trace.peer, replace);
      var notified :=
        match Queued(env, trimmed, Goodbye, SessionAccounting, admitted)
        case Some(peer) => peer
        case None =>
          match Queued(env, trimmed, Goodbye, RawAccounting, admitted)
          case Some(peer) => peer
          case None => trimmed;
      trace.(peer := notified.(phase := Closing))
  }

  // A step that the peer's phase does not allow changes nothing.
  function Next(env: Environment, trace: Trace, step: Step): (after: Trace)
    requires WriteReady(trace.peer)
  {
    var peer := trace.peer;
    if !trace.open then trace
    else
      match step
      case Refuse(message) =>
        if peer.phase.AwaitHandshake? then Refusing(env, trace, message) else trace
      case Establish(sync, studio, admitted) =>
        if peer.phase.AwaitHandshake? then Establishing(env, trace, sync, studio, admitted) else trace
      case Execute(accepted, admitted) =>
        if peer.phase.Active? then ExecutingNext(env, trace, accepted, admitted) else trace
      case Answer(tag, admitted) =>
        if peer.phase.Active? then trace.With(Queued(env, peer, Reply(tag), SessionAccounting, admitted)) else trace
      case Publish(durable) => Publishing(env, trace, durable)
      case Feed(admitted) =>
        if peer.phase.Syncing? && peer.initialSync != [] && |peer.outbound| < OUTBOUND_CAPACITY
        then trace.With(FedOne(env, peer, admitted)) else trace
      case Drain(admitted) => if peer.phase.Active? then Draining(env, trace, admitted) else trace
      case Write(first, second, admitted, web) => Writing(trace, first, second, admitted, web)
      case BecomeActive =>
        if peer.phase.Syncing? && peer.initialSync == [] && peer.outbound == []
        then trace.(peer := peer.(phase := Active)) else trace
      case ReplaceMeter(bytes) =>
        if peer.lossy && peer.phase.Active? && LineShaped(bytes)
        then trace.(peer := peer.(meter := peer.meter.Replace(bytes))) else trace
      case ReplaceStatus(bytes) =>
        if peer.lossy && peer.phase.Active? && LineShaped(bytes)
        then trace.(peer := peer.(status := peer.status.Replace(bytes))) else trace
      case Shutdown(replace, admitted) =>
        if peer.phase.Closing? && peer.session.Some? then trace else ShuttingDown(env, trace, replace, admitted)
      case Close => trace.Closed()
  }

  function Start(transport: Transport, revision: nat): Trace {
    Trace(NewPeer(transport), true, [], [], [], [], 0, revision, 0)
  }
}
