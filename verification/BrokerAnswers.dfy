// When a capture broker grants a call, over every sequence of calls and in terms of what was
// called before.
module BrokerAnswers {
  import opened Basics
  import opened Backoff
  import opened Broker
  import opened BrokerRun

  // The state that a permission was last updated to.
  function LastState(calls: seq<Call>, kind: PermissionKind): (state: PermissionState) {
    if calls == [] then Unknown
    else
      var last := calls[|calls| - 1];
      if last.UpdatePermission? && last.kind == kind then last.state else LastState(calls[..|calls| - 1], kind)
  }

  // The permission that a source needs.
  function Needs(source: CaptureSource): (kind: PermissionKind)
    ensures kind == source.RequiredPermission()
  {
    if source.CameraSource? then Camera else if source.ScreenSource? then ScreenRecording else ApplicationAudio
  }

  predicate Connected(broker: Broker) { broker.pairing.Paired? && broker.pairing.connection.Connected? }

  // A broker that was just created and then called.
  ghost predicate Reached(created: Broker, maximum: nat, policy: BackoffPolicy) {
    policy.Valid() && NewBroker(false, maximum, policy) == Ok(created)
  }

  // The broker is what its history made it: logged out exactly after a logout, each permission
  // in the state of its last update, and asked for exactly if it was prompted for.
  lemma {:induction false} StateIsHistory(created: Broker, maximum: nat, policy: BackoffPolicy, calls: seq<Call>, kind: PermissionKind)
    requires Reached(created, maximum, policy)
    ensures var session := RunFrom(Opened(created), calls);
            && (session.broker.active <==> Logout !in calls)
            && session.broker.permissions.Get(kind).state == LastState(calls, kind)
            && (session.broker.permissions.Get(kind).requestAttempted <==> kind in session.prompted)
            && session.broker.maximum == maximum
            && session.broker.reconnect.policy == policy
  {
    hide Called, Next;
    if calls != [] {
      var front, last := calls[..|calls| - 1], calls[|calls| - 1];
      StateIsHistory(created, maximum, policy, front, kind);
      var session := RunFrom(Opened(created), front);
      assert Logout in calls <==> Logout in front || last == Logout by {
        assert calls == front + [last];
      }
      CallIsRecorded(session, last, kind);
    }
  }

  lemma CallIsRecorded(session: Session, call: Call, kind: PermissionKind)
    ensures var before, after := session.broker, Next(session, call);
            && (after.broker.active <==> before.active && call != Logout)
            && after.broker.permissions.Get(kind).state ==
                 (if call.UpdatePermission? && call.kind == kind then call.state else before.permissions.Get(kind).state)
            && after.broker.maximum == before.maximum && after.broker.reconnect.policy == before.reconnect.policy
            && ((before.permissions.Get(kind).requestAttempted <==> kind in session.prompted) ==>
                  (after.broker.permissions.Get(kind).requestAttempted <==> kind in after.prompted))
  {
    hide DelayForAttempt, Keeping, Revoking, HasId, Leases;
    if call.UpdatePermission? {
      OtherPermission(session.broker.permissions, call.kind,
                      session.broker.permissions.Get(call.kind).(state := call.state), kind);
    } else if call.BeginRequest? {
      OtherPermission(session.broker.permissions, call.kind,
                      session.broker.permissions.Get(call.kind).(requestAttempted := true), kind);
    }
  }

  // A publication is granted exactly if the session was not logged out, the engine is connected,
  // the last update of its permission granted it, its id is new and there is room; it then stands
  // behind the others, and nothing else changes.
  lemma PublishesExactly(created: Broker, maximum: nat, policy: BackoffPolicy, calls: seq<Call>, publication: Publication)
    requires Reached(created, maximum, policy)
    ensures var broker := RunFrom(Opened(created), calls).broker;
            var outcome := Called(broker, Publish(publication));
            && (outcome.answer.Done? <==>
                  && Logout !in calls
                  && Connected(broker)
                  && LastState(calls, Needs(publication.source)).Granted?
                  && (forall i :: 0 <= i < |broker.publications| ==> broker.publications[i].id != publication.id)
                  && |broker.publications| < maximum)
            && (outcome.answer.Done? ==>
                  outcome.broker == broker.(publications := broker.publications + [publication]))
            && (!outcome.answer.Done? ==> outcome.answer.Refused? && outcome.broker == broker)
  {
    StateIsHistory(created, maximum, policy, calls, Needs(publication.source));
    BrokerIsSafe(false, maximum, policy, created, calls);
    hide RunFrom, Leases, FirstAttempts, AllAsked, NewBroker;
  }

  // The first reason that applies is the one that is given.
  lemma RefusesToPublishExactly(created: Broker, maximum: nat, policy: BackoffPolicy, calls: seq<Call>, publication: Publication)
    requires Reached(created, maximum, policy)
    ensures var broker := RunFrom(Opened(created), calls).broker;
            var answer, kind := Called(broker, Publish(publication)).answer, Needs(publication.source);
            var state := LastState(calls, kind);
            && (answer == Refused(LoggedOut) <==> Logout in calls)
            && (answer == Refused(PairingFailed(NotPaired)) <==> Logout !in calls && !Connected(broker))
            && (answer == Refused(PermissionDenied(kind, state)) <==>
                  Logout !in calls && Connected(broker) && !state.Granted?)
            && (answer == Refused(RegistryFailed(Duplicate(publication.id))) <==>
                  && Logout !in calls && Connected(broker) && state.Granted?
                  && exists i :: 0 <= i < |broker.publications| && broker.publications[i].id == publication.id)
  {
    StateIsHistory(created, maximum, policy, calls, Needs(publication.source));
    hide RunFrom, NewBroker;
  }

  // An engine is paired exactly if the session was not logged out and no engine is connected,
  // and none but this one was paired before; any retry is called off.
  lemma PairsExactly(created: Broker, maximum: nat, policy: BackoffPolicy, calls: seq<Call>, engine: nat)
    requires Reached(created, maximum, policy)
    ensures var broker := RunFrom(Opened(created), calls).broker;
            var outcome, known := Called(broker, Pair(engine)), broker.pairing.Paired?;
            && (outcome.answer.Done? <==>
                  Logout !in calls && !Connected(broker) && (known ==> broker.pairing.engine == engine))
            && (outcome.answer == Refused(PairingFailed(AlreadyConnected)) <==> Connected(broker))
            && (outcome.answer.Done? ==>
                  && Connected(outcome.broker) && outcome.broker.pairing.engine == engine
                  && !outcome.broker.reconnect.pending && outcome.broker.reconnect.history == broker.reconnect.history
                  && outcome.broker.publications == broker.publications
                  && outcome.broker.permissions == broker.permissions)
            && (!outcome.answer.Done? ==> outcome.answer.Refused? && outcome.broker == broker)
  {
    StateIsHistory(created, maximum, policy, calls, Camera);
    BrokerIsSafe(false, maximum, policy, created, calls);
    hide RunFrom, Leases, FirstAttempts, AllAsked, NewBroker;
  }

  // A lost connection is recorded exactly if the session was not logged out and the engine is
  // connected; the engine stays paired and the publications stay, and the retry is due after the
  // initial delay.
  lemma DisconnectsExactly(created: Broker, maximum: nat, policy: BackoffPolicy, calls: seq<Call>, at: u64)
    requires Reached(created, maximum, policy)
    ensures var broker := RunFrom(Opened(created), calls).broker;
            var outcome, history := Called(broker, Disconnect(at)), broker.reconnect.history;
            && (outcome.answer.Done? <==> Logout !in calls && Connected(broker))
            && (outcome.answer.Done? ==>
                  && outcome.broker.pairing == Paired(broker.pairing.engine, Connection.Disconnected)
                  && outcome.broker.publications == broker.publications
                  && outcome.broker.reconnect.pending
                  && outcome.broker.reconnect.history ==
                       (if |history| == 32 then history[1..] else history)
                         + [ReconnectRecord(1, at, policy.initial, Min(at + policy.initial, U64_MAX))])
            && (!outcome.answer.Done? ==> outcome.answer.Refused? && outcome.broker == broker)
  {
    hide RunFrom, Leases, Prompted, NewBroker, DelayForAttempt, Registered, Balanced;
    StateIsHistory(created, maximum, policy, calls, Camera);
    BrokerIsSafe(false, maximum, policy, created, calls);
    DelayIsBounded(policy, 1);
  }

  // The user is prompted exactly if the permission was never decided and never prompted for.
  lemma PromptsExactly(created: Broker, maximum: nat, policy: BackoffPolicy, calls: seq<Call>, kind: PermissionKind)
    requires Reached(created, maximum, policy)
    ensures var session := RunFrom(Opened(created), calls);
            Called(session.broker, BeginRequest(kind)).answer ==
              Began(LastState(calls, kind).Unknown? && kind !in session.prompted)
  {
    StateIsHistory(created, maximum, policy, calls, kind);
    hide RunFrom, NewBroker;
  }

  // An update reports the state it replaces and, unless it grants, revokes exactly what rests on
  // the permission; a grant revokes nothing.
  lemma UpdatesExactly(created: Broker, maximum: nat, policy: BackoffPolicy, calls: seq<Call>,
                       kind: PermissionKind, state: PermissionState)
    requires Reached(created, maximum, policy)
    ensures var broker := RunFrom(Opened(created), calls).broker;
            var outcome := Called(broker, UpdatePermission(kind, state));
            var after := outcome.broker.publications;
            && outcome.answer.Moved? && outcome.answer.from == LastState(calls, kind)
            && outcome.answer.revoked.publications == |broker.publications| - |after|
            && outcome.answer.revoked.leases == Leases(broker.publications) - Leases(after)
            && (forall publication :: publication in after <==>
                  && publication in broker.publications
                  && (state.Granted? || Needs(publication.source) != kind))
            && outcome.broker.pairing == broker.pairing && outcome.broker.reconnect == broker.reconnect
  {
    StateIsHistory(created, maximum, policy, calls, kind);
    var broker := RunFrom(Opened(created), calls).broker;
    KeptAndRevoked(broker.publications, kind);
    KeepingIsSubsequence(broker.publications, kind);
    hide RunFrom, NewBroker, Keeping, Revoking, Leases;
  }
}
