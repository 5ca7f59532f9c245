// The capture broker of one user session: permissions, pairing with an engine, publications
// and the record of lost connections (apps/freemix-capture-node/src/broker.rs).
module Broker {
  import opened Basics
  import opened Backoff

  const MAX_PUBLICATIONS: nat := 256
  const MAX_HISTORY: nat := 32
  const U32_MAX: nat := 0xFFFF_FFFF

  // ----- permissions -----

  datatype PermissionState = Unknown | Denied | Granted | Restricted
  datatype PermissionKind = Camera | ScreenRecording | ApplicationAudio
  datatype PermissionStatus = PermissionStatus(state: PermissionState, requestAttempted: bool)

  datatype Permissions = Permissions(
    camera: PermissionStatus, screenRecording: PermissionStatus, applicationAudio: PermissionStatus)
  {
    function Get(kind: PermissionKind): PermissionStatus {
      match kind case Camera => camera case ScreenRecording => screenRecording case ApplicationAudio => applicationAudio
    }

    function Set(kind: PermissionKind, status: PermissionStatus): Permissions {
      match kind
      case Camera => this.(camera := status)
      case ScreenRecording => this.(screenRecording := status)
      case ApplicationAudio => this.(applicationAudio := status)
    }
  }

  const UNASKED := PermissionStatus(Unknown, false)

  // ----- publications -----

  datatype CaptureSource = CameraSource | ScreenSource | ApplicationAudioSource {
    function RequiredPermission(): PermissionKind {
      match this case CameraSource => Camera case ScreenSource => ScreenRecording case ApplicationAudioSource => ApplicationAudio
    }
  }

  // The lease is known only by whether there is one.
  datatype Publication = Publication(id: nat, source: CaptureSource, leased: bool)

  datatype RegistryError = InvalidCapacity | Full | Duplicate(id: nat)

  datatype Summary = Summary(publications: nat, leases: nat)

  const NOTHING := Summary(0, 0)

  predicate HasId(publications: seq<Publication>, id: nat) {
    exists i :: 0 <= i < |publications| && publications[i].id == id
  }

  function Leases(publications: seq<Publication>): (count: nat)
    ensures count <= |publications|
  {
    if publications == [] then 0
    else Leases(publications[..|publications| - 1]) + (if publications[|publications| - 1].leased then 1 else 0)
  }

  // The publications that do not rest on `kind`, in order.
  function Keeping(publications: seq<Publication>, kind: PermissionKind): (kept: seq<Publication>) {
    if publications == [] then []
    else
      var front, last := Keeping(publications[..|publications| - 1], kind), publications[|publications| - 1];
      if last.source.RequiredPermission() == kind then front else front + [last]
  }

  function Revoking(publications: seq<Publication>, kind: PermissionKind): (summary: Summary) {
    if publications == [] then NOTHING
    else
      var front, last := Revoking(publications[..|publications| - 1], kind), publications[|publications| - 1];
      if last.source.RequiredPermission() == kind
      then Summary(front.publications + 1, front.leases + (if last.leased then 1 else 0)) else front
  }

  lemma KeepingNext(publications: seq<Publication>, index: nat, kind: PermissionKind)
    requires index < |publications|
    ensures var last := publications[index];
            var kept, revoked := Keeping(publications[..index], kind), Revoking(publications[..index], kind);
            if last.source.RequiredPermission() == kind then
              && Keeping(publications[..index + 1], kind) == kept
              && Revoking(publications[..index + 1], kind) ==
                   Summary(revoked.publications + 1, revoked.leases + (if last.leased then 1 else 0))
            else
              && Keeping(publications[..index + 1], kind) == kept + [last]
              && Revoking(publications[..index + 1], kind) == revoked
  {
    assert publications[..index + 1][..index] == publications[..index];
  }

  // ----- reconnects -----

  datatype ReconnectRecord = ReconnectRecord(attempt: nat, disconnectedAt: u64, delay: nat, reconnectAt: nat)

  datatype Tracker = Tracker(policy: BackoffPolicy, attempts: nat, pending: bool, history: seq<ReconnectRecord>) {
    function Disconnected(at: u64): (after: Tracker) {
      var attempt := Min(attempts + 1, U32_MAX);
      var delay := DelayForAttempt(policy, attempt);
      var kept := if |history| == MAX_HISTORY then history[1..] else history;
      this.(attempts := attempt, pending := true,
            history := kept + [ReconnectRecord(attempt, at, delay, Min(at + delay, U64_MAX))])
    }

    function Cleared(): (after: Tracker) { this.(attempts := 0, pending := false) }
  }

  // ----- the broker -----

  datatype Connection = Connected | Disconnected
  datatype Pairing = Unpaired | Paired(engine: nat, connection: Connection)

  datatype PairingError = IdentityMismatch(paired: nat, attempted: nat) | AlreadyConnected | NotPaired | AlreadyDisconnected

  datatype BrokerError =
    | BlankSessionId
    | LoggedOut
    | PairingFailed(pairing: PairingError)
    | PermissionDenied(permission: PermissionKind, state: PermissionState)
    | RegistryFailed(registry: RegistryError)

  datatype Broker = Broker(
    active: bool,
    permissions: Permissions,
    pairing: Pairing,
    maximum: nat,
    publications: seq<Publication>,
    reconnect: Tracker)

  function NewBroker(blankId: bool, maximum: nat, policy: BackoffPolicy): (broker: Result<Broker, BrokerError>)
    ensures broker.Ok? <==> !blankId && 1 <= maximum <= MAX_PUBLICATIONS
  {
    if blankId then Err(BlankSessionId)
    else if !(1 <= maximum <= MAX_PUBLICATIONS) then Err(RegistryFailed(InvalidCapacity))
    else Ok(Broker(true, Permissions(UNASKED, UNASKED, UNASKED), Unpaired, maximum, [],
                   Tracker(policy, 0, false, [])))
  }

  datatype Call =
    | BeginRequest(kind: PermissionKind)
    | UpdatePermission(kind: PermissionKind, state: PermissionState)
    | Pair(engine: nat)
    | Disconnect(at: u64)
    | Publish(publication: Publication)
    | Logout

  datatype Answer =
    | Began(prompts: bool)
    | Moved(from: PermissionState, revoked: Summary)
    | Done
    | Refused(error: BrokerError)
    | Ended(revoked: Summary)

  datatype Outcome = Outcome(broker: Broker, answer: Answer)

  function Beginning(broker: Broker, kind: PermissionKind): Outcome {
    var status := broker.permissions.Get(kind);
    if status.state.Unknown? && !status.requestAttempted then
      Outcome(broker.(permissions := broker.permissions.Set(kind, status.(requestAttempted := true))), Began(true))
    else Outcome(broker, Began(false))
  }

  function Updating(broker: Broker, kind: PermissionKind, state: PermissionState): Outcome {
    var status := broker.permissions.Get(kind);
    var moved := broker.(permissions := broker.permissions.Set(kind, status.(state := state)));
    if state.Granted? then Outcome(moved, Moved(status.state, NOTHING))
    else Outcome(moved.(publications := Keeping(broker.publications, kind)),
                 Moved(status.state, Revoking(broker.publications, kind)))
  }

  function Connecting(broker: Broker, engine: nat): Outcome {
    if !broker.active then Outcome(broker, Refused(LoggedOut))
    else if broker.pairing.Paired? && broker.pairing.connection.Connected? then
      Outcome(broker, Refused(PairingFailed(AlreadyConnected)))
    else if broker.pairing.Paired? && broker.pairing.engine != engine then
      Outcome(broker, Refused(PairingFailed(IdentityMismatch(broker.pairing.engine, engine))))
    else Outcome(broker.(pairing := Paired(engine, Connected), reconnect := broker.reconnect.Cleared()), Done)
  }

  function Disconnecting(broker: Broker, at: u64): Outcome {
    if !broker.active then Outcome(broker, Refused(LoggedOut))
    else
      match broker.pairing
      case Unpaired => Outcome(broker, Refused(PairingFailed(NotPaired)))
      case Paired(_, Disconnected) => Outcome(broker, Refused(PairingFailed(AlreadyDisconnected)))
      case Paired(engine, Connected) =>
        Outcome(broker.(pairing := Paired(engine, Connection.Disconnected),
                        reconnect := broker.reconnect.Disconnected(at)), Done)
  }

  function Publishing(broker: Broker, publication: Publication): Outcome {
    var permission := publication.source.RequiredPermission();
    var state := broker.permissions.Get(permission).state;
    if !broker.active then Outcome(broker, Refused(LoggedOut))
    else if broker.pairing.Unpaired? || broker.pairing.connection.Disconnected? then
      Outcome(broker, Refused(PairingFailed(NotPaired)))
    else if !state.Granted? then Outcome(broker, Refused(PermissionDenied(permission, state)))
    else if HasId(broker.publications, publication.id) then
      Outcome(broker, Refused(RegistryFailed(Duplicate(publication.id))))
    else if |broker.publications| == broker.maximum then Outcome(broker, Refused(RegistryFailed(Full)))
    else Outcome(broker.(publications := broker.publications + [publication]), Done)
  }

  function LoggingOut(broker: Broker): Outcome {
    Outcome(broker.(publications := [], pairing := Unpaired, reconnect := broker.reconnect.Cleared(), active := false),
            Ended(Summary(|broker.publications|, Leases(broker.publications))))
  }

  function Called(broker: Broker, call: Call): (outcome: Outcome) {
    match call
    case BeginRequest(kind) => Beginning(broker, kind)
    case UpdatePermission(kind, state) => Updating(broker, kind, state)
    case Pair(engine) => Connecting(broker, engine)
    case Disconnect(at) => Disconnecting(broker, at)
    case Publish(publication) => Publishing(broker, publication)
    case Logout => LoggingOut(broker)
  }

  // ----- the broker as it updates itself -----

  class CaptureBroker {
    const maximum: nat
    const policy: BackoffPolicy
    var active: bool
    var permissions: Permissions
    var pairing: Pairing
    var publications: seq<Publication>
    var attempts: nat
    var pending: bool
    var history: seq<ReconnectRecord>

    ghost function View(): (broker: Broker)
      reads this
    {
      Broker(active, permissions, pairing, maximum, publications, Tracker(policy, attempts, pending, history))
    }

    constructor (maximum: nat, policy: BackoffPolicy)
      requires 1 <= maximum <= MAX_PUBLICATIONS
      ensures NewBroker(false, maximum, policy) == Ok(View())
    {
      this.maximum, this.policy := maximum, policy;
      active, permissions, pairing := true, Permissions(UNASKED, UNASKED, UNASKED), Unpaired;
      publications, attempts, pending, history := [], 0, false, [];
    }

    method BeginPermissionRequest(kind: PermissionKind) returns (answer: Answer)
      modifies this
      ensures Outcome(View(), answer) == Called(old(View()), BeginRequest(kind))
    {
      var status := permissions.Get(kind);
      if status.state.Unknown? && !status.requestAttempted {
        permissions := permissions.Set(kind, status.(requestAttempted := true));
        return Began(true);
      }
      return Began(false);
    }

    method PairWith(engine: nat) returns (answer: Answer)
      modifies this
      ensures Outcome(View(), answer) == Called(old(View()), Pair(engine))
    {
      if !active {
        return Refused(LoggedOut);
      }
      if pairing.Paired? && pairing.connection.Connected? {
        return Refused(PairingFailed(AlreadyConnected));
      }
      if pairing.Paired? && pairing.engine != engine {
        return Refused(PairingFailed(IdentityMismatch(pairing.engine, engine)));
      }
      pairing := Paired(engine, Connected);
      attempts, pending := 0, false;
      return Done;
    }

    method RecordDisconnect(at: u64) returns (answer: Answer)
      modifies this
      ensures Outcome(View(), answer) == Called(old(View()), Disconnect(at))
    {
      if !active {
        return Refused(LoggedOut);
      }
      if pairing.Unpaired? {
        return Refused(PairingFailed(NotPaired));
      }
      if pairing.connection.Disconnected? {
        return Refused(PairingFailed(AlreadyDisconnected));
      }
      pairing := pairing.(connection := Connection.Disconnected);
      attempts := Min(attempts + 1, U32_MAX);
      var delay := DelayForAttempt(policy, attempts);
      if |history| == MAX_HISTORY {
        history := history[1..];
      }
      history := history + [ReconnectRecord(attempts, at, delay, Min(at + delay, U64_MAX))];
      pending := true;
      return Done;
    }

    method PublishMedia(publication: Publication) returns (answer: Answer)
      modifies this
      ensures Outcome(View(), answer) == Called(old(View()), Publish(publication))
    {
      if !active {
        return Refused(LoggedOut);
      }
      if pairing.Unpaired? || pairing.connection.Disconnected? {
        return Refused(PairingFailed(NotPaired));
      }
      var permission := publication.source.RequiredPermission();
      var state := permissions.Get(permission).state;
      if !state.Granted? {
        return Refused(PermissionDenied(permission, state));
      }
      var index := 0;
      while index < |publications|
        invariant 0 <= index <= |publications|
        invariant forall i :: 0 <= i < index ==> publications[i].id != publication.id
      {
        if publications[index].id == publication.id {
          return Refused(RegistryFailed(Duplicate(publication.id)));
        }
        index := index + 1;
      }
      if |publications| == maximum {
        return Refused(RegistryFailed(Full));
      }
      publications := publications + [publication];
      return Done;
    }

    method ChangePermission(kind: PermissionKind, state: PermissionState) returns (answer: Answer)
      modifies this
      ensures Outcome(View(), answer) == Called(old(View()), UpdatePermission(kind, state))
    {
      var status := permissions.Get(kind);
      permissions := permissions.Set(kind, status.(state := state));
      if state.Granted? {
        return Moved(status.state, NOTHING);
      }
      var all, index, revoked := publications, 0, NOTHING;
      publications := [];
      assert Keeping(all[..0], kind) == [] && Revoking(all[..0], kind) == NOTHING;
      hide Keeping, Revoking;
      while index < |all|
        invariant 0 <= index <= |all|
        invariant publications == Keeping(all[..index], kind) && revoked == Revoking(all[..index], kind)
        invariant View() == old(View()).(permissions := permissions, publications := publications)
        invariant permissions == old(permissions).Set(kind, status.(state := state))
      {
        var publication := all[index];
        KeepingNext(all, index, kind);
        if publication.source.RequiredPermission() == kind {
          revoked := Summary(revoked.publications + 1, revoked.leases + (if publication.leased then 1 else 0));
        } else {
          publications := publications + [publication];
        }
        index := index + 1;
      }
      assert all[..|all|] == all;
      return Moved(status.state, revoked);
    }

    method LogOut() returns (answer: Answer)
      modifies this
      ensures Outcome(View(), answer) == Called(old(View()), Logout)
    {
      answer := Ended(Summary(|publications|, Leases(publications)));
      publications, pairing := [], Unpaired;
      attempts, pending, active := 0, false, false;
    }
  }
}
