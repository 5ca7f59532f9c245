// Every sequence of calls on a capture broker.
module BrokerRun {
  import opened Basics
  import opened Backoff
  import opened Broker

  // The broker and totals over all the answers it has given.
  datatype Session = Session(broker: Broker, published: Summary, revoked: Summary, prompted: seq<PermissionKind>)

  function Plus(left: Summary, right: Summary): Summary {
    Summary(left.publications + right.publications, left.leases + right.leases)
  }

  function Revoked(answer: Answer): Summary {
    match answer
    case Moved(_, revoked) => revoked
    case Ended(revoked) => revoked
    case _ => NOTHING
  }

  function PublishedBy(call: Call, answer: Answer): Summary {
    if call.Publish? && answer.Done? then Summary(1, if call.publication.leased then 1 else 0) else NOTHING
  }

  function Next(session: Session, call: Call): (after: Session) {
    var outcome := Called(session.broker, call);
    Session(outcome.broker,
            Plus(session.published, PublishedBy(call, outcome.answer)),
            Plus(session.revoked, Revoked(outcome.answer)),
            if call.BeginRequest? && outcome.answer == Began(true) then session.prompted + [call.kind]
            else session.prompted)
  }

  function RunFrom(session: Session, calls: seq<Call>): (after: Session) {
    if calls == [] then session else Next(RunFrom(session, calls[..|calls| - 1]), calls[|calls| - 1])
  }

  function Opened(broker: Broker): Session { Session(broker, NOTHING, NOTHING, []) }

  // ----- the invariant -----

  ghost predicate Registered(broker: Broker) {
    var publications := broker.publications;
    && |publications| <= broker.maximum
    && (forall i, j :: 0 <= i < j < |publications| ==> publications[i].id != publications[j].id)
    && (forall i :: 0 <= i < |publications| ==>
          broker.permissions.Get(publications[i].source.RequiredPermission()).state.Granted?)
  }

  ghost predicate Lost(broker: Broker) { broker.pairing.Paired? && broker.pairing.connection.Disconnected? }

  ghost predicate FirstAttempts(tracker: Tracker) {
    && |tracker.history| <= MAX_HISTORY
    && (forall i :: 0 <= i < |tracker.history| ==>
          var record := tracker.history[i];
          && record.attempt == 1 && record.delay == tracker.policy.initial
          && record.reconnectAt == Min(record.disconnectedAt + tracker.policy.initial, U64_MAX))
    && (tracker.pending ==> tracker.history != [])
  }

  ghost predicate Tracked(broker: Broker) {
    && broker.reconnect.policy.Valid()
    && (broker.reconnect.pending <==> Lost(broker))
    && broker.reconnect.attempts == (if Lost(broker) then 1 else 0)
    && FirstAttempts(broker.reconnect)
    && (!broker.active ==> broker.publications == [] && broker.pairing.Unpaired?)
  }

  ghost predicate Balanced(session: Session) {
    var live := session.broker.publications;
    && session.published.publications == session.revoked.publications + |live|
    && session.published.leases == session.revoked.leases + Leases(live)
  }

  ghost predicate Prompted(session: Session) {
    && (forall i, j :: 0 <= i < j < |session.prompted| ==> session.prompted[i] != session.prompted[j])
    && AllAsked(session.prompted, session.broker.permissions)
  }

  ghost predicate Safe(session: Session) {
    Registered(session.broker) && Tracked(session.broker) && Balanced(session) && Prompted(session)
  }

  // ----- keeping and revoking -----

  // Every publication is either kept or counted as revoked, with its lease.
  lemma {:induction false} KeptAndRevoked(publications: seq<Publication>, kind: PermissionKind)
    ensures var kept, revoked := Keeping(publications, kind), Revoking(publications, kind);
            && |kept| + revoked.publications == |publications|
            && Leases(kept) + revoked.leases == Leases(publications)
  {
    if publications != [] {
      KeptAndRevoked(publications[..|publications| - 1], kind);
      var front, last := Keeping(publications[..|publications| - 1], kind), publications[|publications| - 1];
      assert (front + [last])[..|front|] == front;
    }
  }

  // What is kept is a subsequence that rests on other permissions only.
  lemma {:induction false} KeepingIsSubsequence(publications: seq<Publication>, kind: PermissionKind)
    ensures var kept := Keeping(publications, kind);
            && (forall i :: 0 <= i < |kept| ==> kept[i] in publications && kept[i].source.RequiredPermission() != kind)
            && (forall publication :: publication in publications && publication.source.RequiredPermission() != kind ==>
                  publication in kept)
  {
    if publications != [] {
      KeepingIsSubsequence(publications[..|publications| - 1], kind);
    }
  }

  lemma {:induction false} KeepingIsDistinct(publications: seq<Publication>, kind: PermissionKind)
    requires forall i, j :: 0 <= i < j < |publications| ==> publications[i].id != publications[j].id
    ensures var kept := Keeping(publications, kind);
            forall i, j :: 0 <= i < j < |kept| ==> kept[i].id != kept[j].id
  {
    if publications != [] {
      var front, last := publications[..|publications| - 1], publications[|publications| - 1];
      KeepingIsDistinct(front, kind);
      KeepingIsSubsequence(front, kind);
      var kept := Keeping(front, kind);
      forall i | 0 <= i < |kept| ensures kept[i].id != last.id {
        var j :| 0 <= j < |front| && front[j] == kept[i];
        assert publications[j].id != publications[|publications| - 1].id;
      }
    }
  }

  // ----- every call -----

  lemma KeepingIsRegistered(broker: Broker, kind: PermissionKind, status: PermissionStatus)
    requires Registered(broker)
    ensures Registered(broker.(permissions := broker.permissions.Set(kind, status),
                               publications := Keeping(broker.publications, kind)))
  {
    var publications, kept := broker.publications, Keeping(broker.publications, kind);
    KeptAndRevoked(publications, kind);
    KeepingIsDistinct(publications, kind);
    KeptStaysGranted(broker, kind, status);
    hide Keeping, Revoking, Leases;
  }

  lemma KeptStaysGranted(broker: Broker, kind: PermissionKind, status: PermissionStatus)
    requires Registered(broker)
    ensures var kept, permissions := Keeping(broker.publications, kind), broker.permissions.Set(kind, status);
            forall i :: 0 <= i < |kept| ==> permissions.Get(kept[i].source.RequiredPermission()).state.Granted?
  {
    var publications, kept := broker.publications, Keeping(broker.publications, kind);
    KeepingIsSubsequence(publications, kind);
    hide Keeping;
    forall i | 0 <= i < |kept|
      ensures broker.permissions.Set(kind, status).Get(kept[i].source.RequiredPermission()).state.Granted?
    {
      assert kept[i] in publications;
      var j :| 0 <= j < |publications| && publications[j] == kept[i];
      OtherPermission(broker.permissions, kind, status, kept[i].source.RequiredPermission());
    }
  }

  lemma OtherPermission(permissions: Permissions, kind: PermissionKind, status: PermissionStatus, other: PermissionKind)
    ensures permissions.Set(kind, status).Get(other) == if other == kind then status else permissions.Get(other)
  {
  }

  lemma UpdatingIsSafe(session: Session, kind: PermissionKind, state: PermissionState)
    requires Safe(session)
    ensures Safe(Next(session, UpdatePermission(kind, state)))
  {
    var broker := session.broker;
    var status := broker.permissions.Get(kind).(state := state);
    if state.Granted? {
      GrantingIsRegistered(broker, kind, status);
      SettingKeepsPrompts(session.prompted, broker.permissions, kind, status);
      hide Registered, Leases, FirstAttempts;
    } else {
      KeepingIsRegistered(broker, kind, status);
      SettingKeepsPrompts(session.prompted, broker.permissions, kind, status);
      KeptAndRevoked(broker.publications, kind);
      assert broker.publications == [] ==> Keeping(broker.publications, kind) == [];
      hide Keeping, Revoking, Leases, FirstAttempts, Registered;
    }
  }

  ghost predicate AllAsked(prompted: seq<PermissionKind>, permissions: Permissions) {
    forall kind :: kind in prompted ==> permissions.Get(kind).requestAttempted
  }

  lemma SettingKeepsPrompts(
    prompted: seq<PermissionKind>, permissions: Permissions, kind: PermissionKind, status: PermissionStatus)
    requires AllAsked(prompted, permissions)
    requires permissions.Get(kind).requestAttempted ==> status.requestAttempted
    ensures AllAsked(prompted, permissions.Set(kind, status))
  {
  }

  lemma GrantingIsRegistered(broker: Broker, kind: PermissionKind, status: PermissionStatus)
    requires Registered(broker) && status.state.Granted?
    ensures Registered(broker.(permissions := broker.permissions.Set(kind, status)))
  {
  }

  lemma PublishingIsSafe(session: Session, publication: Publication)
    requires Safe(session)
    ensures Safe(Next(session, Publish(publication)))
  {
    LeasesLast(session.broker.publications, publication);
    hide Leases, FirstAttempts, AllAsked;
  }

  lemma LeasesLast(publications: seq<Publication>, last: Publication)
    ensures Leases(publications + [last]) == Leases(publications) + (if last.leased then 1 else 0)
  {
    assert (publications + [last])[..|publications|] == publications;
  }

  lemma DisconnectingIsSafe(session: Session, at: u64)
    requires Safe(session)
    ensures Safe(Next(session, Disconnect(at)))
  {
    var tracker := session.broker.reconnect;
    DelayIsBounded(tracker.policy, 1);
    hide DelayForAttempt;
  }

  lemma NextIsSafe(session: Session, call: Call)
    requires Safe(session)
    ensures Safe(Next(session, call))
  {
    hide Safe, Next;
    match call
    case UpdatePermission(kind, state) => UpdatingIsSafe(session, kind, state);
    case Publish(publication) => PublishingIsSafe(session, publication);
    case Disconnect(at) => DisconnectingIsSafe(session, at);
    case Pair(engine) => PairingIsSafe(session, engine);
    case BeginRequest(kind) => BeginningIsSafe(session, kind);
    case Logout => LoggingOutIsSafe(session);
  }

  lemma PairingIsSafe(session: Session, engine: nat)
    requires Safe(session)
    ensures Safe(Next(session, Pair(engine)))
  {
    hide Leases;
  }

  lemma BeginningIsSafe(session: Session, kind: PermissionKind)
    requires Safe(session)
    ensures Safe(Next(session, BeginRequest(kind)))
  {
    hide Leases, FirstAttempts;
  }

  lemma LoggingOutIsSafe(session: Session)
    requires Safe(session)
    ensures Safe(Next(session, Logout))
  {
    assert Leases([]) == 0;
  }

  lemma {:induction false} EveryRunIsSafe(session: Session, calls: seq<Call>)
    requires Safe(session)
    ensures Safe(RunFrom(session, calls))
  {
    if calls != [] {
      EveryRunIsSafe(session, calls[..|calls| - 1]);
      NextIsSafe(RunFrom(session, calls[..|calls| - 1]), calls[|calls| - 1]);
    }
  }

  lemma FreshIsSafe(broker: Broker)
    requires broker.active && broker.pairing.Unpaired? && broker.publications == []
    requires broker.reconnect.policy.Valid() && broker.reconnect.history == []
    requires !broker.reconnect.pending && broker.reconnect.attempts == 0
    ensures Safe(Opened(broker))
  {
    assert Leases(broker.publications) == 0;
    hide Leases;
  }

  lemma NewBrokerIsSafe(blankId: bool, maximum: nat, policy: BackoffPolicy, broker: Broker)
    requires policy.Valid() && NewBroker(blankId, maximum, policy) == Ok(broker)
    ensures Safe(Opened(broker))
  {
    hide Safe;
    FreshIsSafe(broker);
  }

  // On every run of a broker that could be created: publications are within the maximum, have
  // distinct ids and rest on granted permissions; whatever was published is live or counted as
  // revoked, and so are the leases; a reconnect is pending exactly while the engine is lost; each
  // reconnect on record is a first attempt after the initial delay; no permission is prompted
  // for twice.
  lemma BrokerIsSafe(blankId: bool, maximum: nat, policy: BackoffPolicy, broker: Broker, calls: seq<Call>)
    requires policy.Valid() && NewBroker(blankId, maximum, policy) == Ok(broker)
    ensures var session := RunFrom(Opened(broker), calls);
            Safe(session)
  {
    hide *;
    NewBrokerIsSafe(blankId, maximum, policy, broker);
    EveryRunIsSafe(Opened(broker), calls);
  }

  // ----- logging out, pairing -----

  ghost predicate Ended(broker: Broker) {
    !broker.active && broker.publications == [] && broker.pairing.Unpaired? && !broker.reconnect.pending
  }

  // After a logout nothing is ever published, paired or pending again, and every call that
  // would need the session is refused.
  lemma {:induction false} LogoutIsFinal(session: Session, calls: seq<Call>)
    ensures var after := RunFrom(Next(session, Logout), calls);
            && Ended(after.broker)
            && forall call: Call :: call.Pair? || call.Publish? || call.Disconnect? ==>
                 Called(after.broker, call) == Outcome(after.broker, Refused(LoggedOut))
  {
    if calls != [] {
      LogoutIsFinal(session, calls[..|calls| - 1]);
    }
  }

  // The paired engine never changes while the session lasts.
  lemma {:induction false} PairingIsFixed(session: Session, calls: seq<Call>)
    requires session.broker.active && session.broker.pairing.Paired?
    ensures var after := RunFrom(session, calls).broker;
            if after.active then after.pairing.Paired? && after.pairing.engine == session.broker.pairing.engine
            else after.pairing.Unpaired?
  {
    if calls != [] {
      PairingIsFixed(session, calls[..|calls| - 1]);
    }
  }
}
