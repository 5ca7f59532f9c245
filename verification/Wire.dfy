// Partial writes to a peer's socket, and the coalescing slot for lossy records
// (apps/freemixd/src/latest_record.rs; PendingWrite in apps/freemixd/src/main.rs).
module Wire {
  import opened Basics

  // One encoded record and how much of it the socket has taken.
  datatype PendingWrite = PendingWrite(bytes: seq<byte>, offset: nat) {
    predicate Started() { offset != 0 }

    // Part of the record is still to be written.
    predicate Unfinished() { offset < |bytes| }

    function Written(): seq<byte>
      requires offset <= |bytes|
    {
      bytes[..offset]
    }
  }

  // An encoded record is one line: its only newline is its last byte.
  predicate LineShaped(bytes: seq<byte>) {
    && bytes != []
    && bytes[|bytes| - 1] == NEWLINE
    && forall i :: 0 <= i < |bytes| - 1 ==> bytes[i] != NEWLINE
  }

  // What the socket answers to one write call.
  datatype WriteAnswer = Accepts(count: nat) | WouldBlock | Broken

  // An answer that ends the connection if a record was offered.
  predicate Breaks(answer: WriteAnswer) { answer.Broken? || answer == Accepts(0) }

  // How much of `room` bytes the socket takes.
  function Taken(answer: WriteAnswer, room: nat): (count: nat)
    ensures count <= room
  {
    if !answer.Accepts? then 0 else if answer.count < room then answer.count else room
  }

  datatype Progress = Complete | Partial | Blocked | Failed

  // One write call: how far it got, the bytes that reached the wire and the record left.
  datatype Written = Written(write: PendingWrite, bytes: seq<byte>, progress: Progress)

  function WriteOnce(write: PendingWrite, answer: WriteAnswer): (written: Written)
    requires write.Unfinished()
    ensures written.write.bytes == write.bytes
    ensures written.write.offset == write.offset + Taken(answer, |write.bytes| - write.offset)
    ensures written.progress.Failed? <==> Breaks(answer)
    ensures written.progress.Blocked? <==> answer.WouldBlock?
    ensures written.progress.Complete? <==> answer.Accepts? && answer.count >= |write.bytes| - write.offset
    ensures written.progress.Partial? ==>
              && written.write.Unfinished() && written.bytes != []
              && written.write.Written() == write.Written() + written.bytes
    ensures written.progress.Complete? ==> write.bytes == write.Written() + written.bytes && written.bytes != []
    ensures written.progress.Blocked? || written.progress.Failed? ==> written.write == write && written.bytes == []
  {
    match answer
    case WouldBlock => Written(write, [], Blocked)
    case Broken => Written(write, [], Failed)
    case Accepts(count) =>
      var room := |write.bytes| - write.offset;
      var taken := if count < room then count else room;
      if taken == 0 then Written(write, [], Failed)
      else
        var next := write.(offset := write.offset + taken);
        Written(next, write.bytes[write.offset..next.offset],
                if next.offset == |write.bytes| then Complete else Partial)
  }

  // A slot that keeps an in-flight record and, behind it, only the latest of the rest.
  datatype LatestRecord = LatestRecord(current: Option<PendingWrite>, next: Option<PendingWrite>) {
    predicate Started() { current.Some? && current.value.Started() }

    // Only the current record can be in flight, and nothing in the slot is complete.
    predicate Valid() {
      && (current.Some? ==> current.value.Unfinished() && LineShaped(current.value.bytes))
      && (next.Some? ==> next.value.offset == 0 && LineShaped(next.value.bytes))
      && (next.Some? && current.Some? ==> current.value.Started())
    }

    function Replace(bytes: seq<byte>): (slot: LatestRecord) {
      var record := PendingWrite(bytes, 0);
      if Started() then this.(next := Some(record)) else LatestRecord(Some(record), None)
    }

    function DiscardUnstarted(): (slot: LatestRecord) {
      LatestRecord(if Started() then current else None, None)
    }

    // The record the next write call works on.
    function Promoted(): (slot: LatestRecord) {
      if current.None? then LatestRecord(next, None) else this
    }

    function Prefix(): (bytes: seq<byte>)
      requires Valid()
    {
      if current.Some? then current.value.Written() else []
    }
  }

  const EMPTY_SLOT := LatestRecord(None, None)

  datatype SlotWrite = SlotWrite(slot: LatestRecord, bytes: seq<byte>, done: seq<seq<byte>>, progress: Progress)

  function WriteSlot(slot: LatestRecord, answer: WriteAnswer): (result: SlotWrite)
    requires slot.Valid()
    ensures result.slot.Valid()
    ensures slot.Prefix() + result.bytes == Flatten(result.done) + result.slot.Prefix()
    ensures forall i :: 0 <= i < |result.done| ==> LineShaped(result.done[i])
    ensures result.slot.Started() ==> slot.Started() || result.progress.Partial?
    ensures result.progress.Partial? ==> result.slot.Started() && result.done == []
  {
    hide Flatten, Taken, Breaks;
    var promoted := slot.Promoted();
    PromotionKeepsPrefix(slot);
    match promoted.current
    case None =>
      StreamOfNone([], [], []);
      SlotWrite(promoted, [], [], Blocked)
    case Some(record) =>
      var written := WriteOnce(record, answer);
      match written.progress
      case Complete =>
        StreamOfOne(record.Written(), written.bytes, record.bytes);
        SlotWrite(promoted.(current := None), written.bytes, [record.bytes], Complete)
      case _ =>
        StreamOfNone(record.Written(), written.bytes, written.write.Written());
        SlotWrite(promoted.(current := Some(written.write)), written.bytes, [], written.progress)
  }

  lemma PromotionKeepsPrefix(slot: LatestRecord)
    requires slot.Valid()
    ensures slot.Promoted().Valid() && slot.Promoted().Prefix() == slot.Prefix()
  {
  }

  lemma StreamOfOne(before: seq<byte>, bytes: seq<byte>, whole: seq<byte>)
    requires whole == before + bytes
    ensures before + bytes == Flatten([whole]) + []
  {
    FlattenOne(whole);
  }

  lemma StreamOfNone(before: seq<byte>, bytes: seq<byte>, after: seq<byte>)
    requires after == before + bytes
    ensures before + bytes == Flatten([]) + after
  {
  }

  lemma FlattenOne<T>(part: seq<T>)
    ensures Flatten([part]) == part
  {
    assert Flatten([part]) == part + Flatten([part][1..]);
    assert Flatten([part][1..]) == [];
  }

  // The slot as the daemon updates it in place.
  class LatestRecordSlot {
    var current: Option<PendingWrite>
    var next: Option<PendingWrite>

    ghost function View(): (slot: LatestRecord)
      reads this
    {
      LatestRecord(current, next)
    }

    constructor ()
      ensures View() == EMPTY_SLOT
    {
      current, next := None, None;
    }

    method ReplaceWith(bytes: seq<byte>)
      modifies this
      ensures View() == old(View()).Replace(bytes)
    {
      var record := PendingWrite(bytes, 0);
      if current.Some? && current.value.Started() {
        next := Some(record);
      } else {
        current, next := Some(record), None;
      }
    }

    method Discard()
      modifies this
      ensures View() == old(View()).DiscardUnstarted()
    {
      next := None;
      if !(current.Some? && current.value.Started()) {
        current := None;
      }
    }

    method Write(answer: WriteAnswer) returns (bytes: seq<byte>, progress: Progress)
      requires View().Valid()
      modifies this
      ensures View().Valid()
      ensures var result := WriteSlot(old(View()), answer);
              View() == result.slot && bytes == result.bytes && progress == result.progress
    {
      if current.None? {
        current, next := next, None;
      }
      if current.None? {
        return [], Blocked;
      }
      var written := WriteOnce(current.value, answer);
      current := if written.progress.Complete? then None else Some(written.write);
      return written.bytes, written.progress;
    }
  }

  // ----- what a slot delivers -----

  datatype SlotEvent = Replaced(bytes: seq<byte>) | Wrote(answer: WriteAnswer)

  datatype SlotRun = SlotRun(slot: LatestRecord, offered: nat, currentIndex: nat, nextIndex: nat, finished: seq<nat>)

  function SlotStep(run: SlotRun, event: SlotEvent): (after: SlotRun)
    requires run.slot.Valid()
    requires event.Replaced? ==> LineShaped(event.bytes)
    ensures after.slot.Valid()
  {
    match event
    case Replaced(bytes) =>
      if run.slot.Started() then run.(slot := run.slot.Replace(bytes), offered := run.offered + 1, nextIndex := run.offered)
      else run.(slot := run.slot.Replace(bytes), offered := run.offered + 1, currentIndex := run.offered)
    case Wrote(answer) =>
      var result := WriteSlot(run.slot, answer);
      var index := if run.slot.current.Some? then run.currentIndex else run.nextIndex;
      run.(slot := result.slot, currentIndex := index,
           finished := if result.done == [] then run.finished else run.finished + [index])
  }

  function SlotRunOf(events: seq<SlotEvent>): (run: SlotRun)
    requires forall i :: 0 <= i < |events| && events[i].Replaced? ==> LineShaped(events[i].bytes)
    ensures run.slot.Valid()
  {
    if events == [] then SlotRun(EMPTY_SLOT, 0, 0, 0, [])
    else SlotStep(SlotRunOf(events[..|events| - 1]), events[|events| - 1])
  }

  predicate Ascending(indices: seq<nat>) { forall i, j :: 0 <= i < j < |indices| ==> indices[i] < indices[j] }

  predicate Below(indices: seq<nat>, bound: nat) { forall i :: 0 <= i < |indices| ==> indices[i] < bound }

  lemma AppendBelow(indices: seq<nat>, last: nat, bound: nat)
    requires Ascending(indices) && Below(indices, last)
    ensures Ascending(indices + [last])
    ensures last < bound ==> Below(indices + [last], bound)
  {
  }

  // Finished records come before the current one, which comes before the waiting one,
  // and the newest record offered is the last of these.
  ghost predicate InOrder(run: SlotRun) {
    var newest := if run.slot.next.Some? then run.nextIndex else run.currentIndex;
    && Ascending(run.finished)
    && Below(run.finished, run.offered)
    && (run.slot.current.Some? || run.slot.next.Some? ==> run.offered > 0 && newest == run.offered - 1)
    && (run.slot.current.Some? && run.slot.next.Some? ==> run.currentIndex < run.nextIndex)
    && (run.slot.current.Some? ==> Below(run.finished, run.currentIndex))
    && (run.slot.next.Some? ==> Below(run.finished, run.nextIndex))
    && (run.slot == EMPTY_SLOT && run.offered > 0 ==>
          run.finished != [] && run.finished[|run.finished| - 1] == run.offered - 1)
  }

  lemma SlotStepKeepsOrder(run: SlotRun, event: SlotEvent)
    requires run.slot.Valid() && InOrder(run)
    requires event.Replaced? ==> LineShaped(event.bytes)
    ensures InOrder(SlotStep(run, event))
  {
    hide LineShaped, WriteOnce, Flatten;
    if event.Wrote? {
      WritingKeepsOrder(run, event.answer);
    }
  }

  lemma SlotWriteFacts(slot: LatestRecord, answer: WriteAnswer)
    requires slot.Valid()
    ensures var promoted, result := slot.Promoted(), WriteSlot(slot, answer);
            && result.slot.next == promoted.next
            && (result.done == [] ==> (result.slot.current.Some? <==> promoted.current.Some?))
            && (result.done != [] ==> promoted.current.Some? && result.slot.current.None?)
  {
    hide LineShaped, WriteOnce, Flatten;
  }

  lemma WritingKeepsOrder(run: SlotRun, answer: WriteAnswer)
    requires run.slot.Valid() && InOrder(run)
    ensures InOrder(SlotStep(run, Wrote(answer)))
  {
    var promoted, result := PromotedRun(run), WriteSlot(run.slot, answer);
    SlotWriteFacts(run.slot, answer);
    PromotionKeepsOrder(run);
    hide WriteSlot, InOrder, LineShaped;
    if result.done != [] {
      FinishingKeepsOrder(promoted);
    } else {
      SameSlotsSameOrder(promoted, SlotStep(run, Wrote(answer)));
    }
  }

  // The run once the waiting record has taken the place of a missing current one.
  function PromotedRun(run: SlotRun): (promoted: SlotRun) {
    run.(slot := run.slot.Promoted(), currentIndex := if run.slot.current.Some? then run.currentIndex else run.nextIndex)
  }

  lemma PromotionKeepsOrder(run: SlotRun)
    requires InOrder(run)
    ensures InOrder(PromotedRun(run))
  {
    hide Ascending, Below;
  }

  lemma FinishingKeepsOrder(run: SlotRun)
    requires InOrder(run) && run.slot.current.Some?
    ensures InOrder(run.(slot := run.slot.(current := None), finished := run.finished + [run.currentIndex]))
  {
    AppendBelow(run.finished, run.currentIndex, run.offered);
    AppendBelow(run.finished, run.currentIndex, run.nextIndex);
    hide Ascending, Below;
  }

  lemma SameSlotsSameOrder(left: SlotRun, right: SlotRun)
    requires InOrder(left) && right == left.(slot := right.slot)
    requires left.slot.next == right.slot.next && (left.slot.current.Some? <==> right.slot.current.Some?)
    ensures InOrder(right)
  {
    hide Ascending, Below;
  }

  // Over every run of replacements and writes the slot delivers the offered records in order,
  // each at most once, and once it is empty the last record delivered is the last one offered.
  lemma {:induction false} SlotDeliversLatest(events: seq<SlotEvent>)
    requires forall i :: 0 <= i < |events| && events[i].Replaced? ==> LineShaped(events[i].bytes)
    ensures var run := SlotRunOf(events);
            && (forall i, j :: 0 <= i < j < |run.finished| ==> run.finished[i] < run.finished[j] < run.offered)
            && (run.slot == EMPTY_SLOT && run.offered > 0 ==>
                  run.finished != [] && run.finished[|run.finished| - 1] == run.offered - 1)
    ensures InOrder(SlotRunOf(events))
  {
    hide SlotStep, LineShaped;
    if events != [] {
      SlotDeliversLatest(events[..|events| - 1]);
      SlotStepKeepsOrder(SlotRunOf(events[..|events| - 1]), events[|events| - 1]);
    }
  }
}
