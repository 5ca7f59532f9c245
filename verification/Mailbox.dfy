// A one-slot mailbox between two threads: the sender stores the latest value and then leaves a
// wake-up token; the receiver takes a token and then the value. The studio uses it for its
// state updates (apps/freemix-studio/src/native.rs), the program surface for window sizes and
// recreation requests (apps/freemixd/src/program_surface.rs).
module Mailbox {
  import opened Basics

  // `storing` and `taking` mark a party between its two steps. The last three fields record
  // what was published, what was received and, for each value received, which one it was.
  datatype Mailbox<T> = Mailbox(
    slot: Option<T>,
    token: bool,
    storing: bool,
    taking: bool,
    published: seq<T>,
    received: seq<T>,
    receivedAt: seq<nat>)

  function EmptyMailbox<T>(): Mailbox<T> { Mailbox(None, false, false, false, [], [], []) }

  datatype Step<T> = Store(value: T) | Notify | TakeToken | TakeValue

  function Stored<T>(box: Mailbox<T>, value: T): (after: Mailbox<T>) {
    box.(slot := Some(value), storing := true, published := box.published + [value])
  }

  // A token that is already there is left alone.
  function Notified<T>(box: Mailbox<T>): (after: Mailbox<T>) { box.(token := true, storing := false) }

  function TokenTaken<T>(box: Mailbox<T>): (after: Mailbox<T>) { box.(token := false, taking := box.token) }

  function ValueTaken<T>(box: Mailbox<T>): (after: Mailbox<T>) {
    var rest := box.(slot := None, taking := false);
    if box.slot.Some? && box.published != [] then
      rest.(received := box.received + [box.slot.value], receivedAt := box.receivedAt + [|box.published| - 1])
    else rest
  }

  // Each party performs its two steps in turn; a step out of turn changes nothing.
  function Next<T>(box: Mailbox<T>, step: Step<T>): (after: Mailbox<T>) {
    match step
    case Store(value) => if box.storing then box else Stored(box, value)
    case Notify => if box.storing then Notified(box) else box
    case TakeToken => if box.taking then box else TokenTaken(box)
    case TakeValue => if box.taking then ValueTaken(box) else box
  }

  function RunOf<T>(steps: seq<Step<T>>): (box: Mailbox<T>) {
    if steps == [] then EmptyMailbox() else Next(RunOf(steps[..|steps| - 1]), steps[|steps| - 1])
  }

  // A stored value is announced, or about to be, or about to be taken.
  predicate Announced<T>(box: Mailbox<T>) { box.slot.Some? ==> box.token || box.storing || box.taking }

  predicate Ascending(indices: seq<nat>) { forall i, j :: 0 <= i < j < |indices| ==> indices[i] < indices[j] }

  ghost predicate Faithful<T>(box: Mailbox<T>) {
    && Announced(box)
    && (box.slot.Some? ==> box.published != [] && box.slot.value == box.published[|box.published| - 1])
    && |box.received| == |box.receivedAt|
    && (forall i :: 0 <= i < |box.received| ==>
          box.receivedAt[i] < |box.published| && box.received[i] == box.published[box.receivedAt[i]])
    && Ascending(box.receivedAt)
    && (box.slot.Some? ==> forall i :: 0 <= i < |box.receivedAt| ==> box.receivedAt[i] < |box.published| - 1)
    && (box.slot.None? && box.published != [] ==>
          box.receivedAt != [] && box.receivedAt[|box.receivedAt| - 1] == |box.published| - 1)
  }

  lemma NextIsFaithful<T>(box: Mailbox<T>, step: Step<T>)
    requires Faithful(box)
    ensures Faithful(Next(box, step))
  {
    if step.Store? && !box.storing {
      StoringIsFaithful(box, step.value);
    } else if step.TakeValue? && box.taking {
      TakingIsFaithful(box);
    }
  }

  lemma StoringIsFaithful<T>(box: Mailbox<T>, value: T)
    requires Faithful(box)
    ensures Faithful(Stored(box, value))
  {
  }

  lemma TakingIsFaithful<T>(box: Mailbox<T>)
    requires Faithful(box)
    ensures Faithful(ValueTaken(box))
  {
    if box.slot.Some? {
      AscendingLast(box.receivedAt, |box.published| - 1);
    }
    hide Ascending;
  }

  lemma AscendingLast(indices: seq<nat>, last: nat)
    requires Ascending(indices) && forall i :: 0 <= i < |indices| ==> indices[i] < last
    ensures Ascending(indices + [last])
  {
  }

  // Over every interleaving no wake-up is lost, and what is received is a subsequence of what
  // was published, in order and without repetition.
  lemma {:induction false} EveryRunIsFaithful<T>(steps: seq<Step<T>>)
    ensures Faithful(RunOf(steps))
  {
    if steps != [] {
      EveryRunIsFaithful(steps[..|steps| - 1]);
      NextIsFaithful(RunOf(steps[..|steps| - 1]), steps[|steps| - 1]);
    }
  }

  // Each party finishing what it began and the receiver looking once more.
  function Drained<T>(box: Mailbox<T>): (after: Mailbox<T>) {
    Next(Next(Next(Next(box, Notify), TakeValue), TakeToken), TakeValue)
  }

  lemma DrainedIsFaithful<T>(box: Mailbox<T>)
    requires Faithful(box)
    ensures Faithful(Drained(box))
  {
    hide Faithful, Next;
    NextIsFaithful(box, Notify);
    NextIsFaithful(Next(box, Notify), TakeValue);
    NextIsFaithful(Next(Next(box, Notify), TakeValue), TakeToken);
    NextIsFaithful(Next(Next(Next(box, Notify), TakeValue), TakeToken), TakeValue);
  }

  lemma DrainedIsEmpty<T>(box: Mailbox<T>)
    requires Announced(box)
    ensures Drained(box).slot.None? && Drained(box).published == box.published
  {
  }

  // After a drain the receiver's newest value is the last one published, whatever was skipped.
  lemma DrainDeliversLatest<T>(steps: seq<Step<T>>)
    requires RunOf(steps).published != []
    ensures var box := Drained(RunOf(steps));
            && box.published == RunOf(steps).published
            && box.slot.None? && box.received != []
            && box.received[|box.received| - 1] == box.published[|box.published| - 1]
  {
    EveryRunIsFaithful(steps);
    hide RunOf, Drained;
    DrainedIsFaithful(RunOf(steps));
    DrainedIsEmpty(RunOf(steps));
  }

  // A receiver that finds no token while nobody is between steps has missed nothing.
  lemma NoTokenMeansNothingWaiting<T>(steps: seq<Step<T>>)
    requires var box := RunOf(steps); !box.token && !box.storing && !box.taking && box.published != []
    ensures var box := RunOf(steps);
            box.received != [] && box.received[|box.received| - 1] == box.published[|box.published| - 1]
  {
    EveryRunIsFaithful(steps);
  }

  // How often the receiver found a token, and how often the sender left one.
  function Wakes<T>(steps: seq<Step<T>>): (count: nat) {
    if steps == [] then 0
    else
      var front, last := steps[..|steps| - 1], steps[|steps| - 1];
      Wakes(front) + (if last.TakeToken? && !RunOf(front).taking && Next(RunOf(front), last).taking then 1 else 0)
  }

  function Notices<T>(steps: seq<Step<T>>): (count: nat) {
    if steps == [] then 0
    else
      var front, last := steps[..|steps| - 1], steps[|steps| - 1];
      Notices(front) + (if last.Notify? && RunOf(front).storing then 1 else 0)
  }

  // The receiver wakes at most once for each wake-up it is sent, so it never spins on one token,
  // and every value published is announced but perhaps the last.
  lemma {:induction false} NoWakeWithoutNotice<T>(steps: seq<Step<T>>)
    ensures var box := RunOf(steps);
            && Wakes(steps) + (if box.token then 1 else 0) <= Notices(steps)
            && |box.received| <= Wakes(steps)
            && |box.published| == Notices(steps) + (if box.storing then 1 else 0)
            && |box.received| + (if box.taking then 1 else 0) <= Wakes(steps)
  {
    if steps != [] {
      NoWakeWithoutNotice(steps[..|steps| - 1]);
    }
  }
}
