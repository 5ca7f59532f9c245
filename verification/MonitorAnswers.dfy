// Which monitor an index means: the one with that many monitors ahead of it, counted from the
// left, then from the top.
module MonitorAnswers {
  import opened Basics
  import opened Monitors

  // ----- the order -----

  // Names compare at their first difference; a name comes before its own continuations.
  predicate DiffersAt(left: seq<byte>, right: seq<byte>, k: nat) {
    && k <= |left| && k < |right| && left[..k] == right[..k]
    && (k < |left| ==> left[k] < right[k])
  }

  lemma DiffersLater(left: seq<byte>, right: seq<byte>, k: nat)
    requires left != [] && right != [] && left[0] == right[0]
    ensures DiffersAt(left, right, k + 1) <==> DiffersAt(left[1..], right[1..], k)
  {
    if k < |right[1..]| && k <= |left[1..]| {
      assert left[..k + 1] == [left[0]] + left[1..][..k] && right[..k + 1] == [right[0]] + right[1..][..k];
      assert left[1..][..k] == left[..k + 1][1..] && right[1..][..k] == right[..k + 1][1..];
    }
  }

  lemma DiffersBehind(left: seq<byte>, right: seq<byte>, k: nat)
    requires DiffersAt(left, right, k)
    ensures k == 0 || (left != [] && right != [] && left[0] == right[0])
  {
    if k > 0 {
      assert left[..k][0] == right[..k][0];
    }
  }

  lemma {:induction false} NamesCompareAtFirstDifference(left: seq<byte>, right: seq<byte>)
    ensures NameBefore(left, right) <==> exists k: nat :: DiffersAt(left, right, k)
  {
    if right != [] && left != [] && left[0] == right[0] {
      NamesCompareAtFirstDifference(left[1..], right[1..]);
      if NameBefore(left, right) {
        var k: nat :| DiffersAt(left[1..], right[1..], k);
        DiffersLater(left, right, k);
      }
      forall k: nat | DiffersAt(left, right, k) ensures NameBefore(left, right) {
        assert k > 0;
        DiffersLater(left, right, k - 1);
      }
    } else if NameBefore(left, right) {
      assert DiffersAt(left, right, 0);
    } else {
      forall k: nat | DiffersAt(left, right, k) ensures k == 0 {
        DiffersBehind(left, right, k);
      }
    }
  }

  // Further left comes first; of monitors as far left, the higher one; of monitors in one place,
  // the one with the lesser name.
  lemma LeftComesFirst(left: Descriptor, right: Descriptor)
    ensures left.x < right.x ==> Before(left, right)
    ensures left.x == right.x && left.y < right.y ==> Before(left, right)
    ensures left.x == right.x && left.y == right.y && NameBefore(left.name, right.name) ==> Before(left, right)
    ensures Before(left, right) ==> left.x <= right.x
    ensures Before(left, right) && left.x == right.x ==> left.y <= right.y
  {
    NameOrder(left.name, right.name);
  }

  // ----- the rank -----

  // How many entries come before a descriptor.
  function Ahead<I>(entries: seq<Entry<I>>, descriptor: Descriptor): (count: nat) {
    if entries == [] then 0
    else
      Ahead(entries[..|entries| - 1], descriptor)
        + (if Before(entries[|entries| - 1].descriptor, descriptor) then 1 else 0)
  }

  lemma AheadLast<I>(entries: seq<Entry<I>>, last: Entry<I>, descriptor: Descriptor)
    ensures Ahead(entries + [last], descriptor) ==
              Ahead(entries, descriptor) + (if Before(last.descriptor, descriptor) then 1 else 0)
  {
    assert (entries + [last])[..|entries|] == entries;
  }

  lemma {:induction false} AheadInserted<I>(entries: seq<Entry<I>>, entry: Entry<I>, descriptor: Descriptor)
    ensures Ahead(Inserted(entries, entry), descriptor) == Ahead(entries + [entry], descriptor)
  {
    AheadLast(entries, entry, descriptor);
    if entries != [] && Before(entry.descriptor, entries[|entries| - 1].descriptor) {
      var front, last := entries[..|entries| - 1], entries[|entries| - 1];
      AheadInserted(front, entry, descriptor);
      AheadLast(front, entry, descriptor);
      AheadLast(Inserted(front, entry), last, descriptor);
      assert entries == front + [last];
      hide Before;
    }
  }

  // The rank does not depend on the order of the inventory.
  lemma {:induction false} SortKeepsRanks<I>(entries: seq<Entry<I>>, descriptor: Descriptor)
    ensures Ahead(Sorted(entries), descriptor) == Ahead(entries, descriptor)
  {
    if entries != [] {
      var front, last := entries[..|entries| - 1], entries[|entries| - 1];
      SortKeepsRanks(front, descriptor);
      AheadInserted(Sorted(front), last, descriptor);
      AheadLast(Sorted(front), last, descriptor);
      hide Before, Inserted;
    }
  }

  // Behind the entries that are before it in an ordered list, none is.
  lemma {:induction false} RankInOrder<I>(entries: seq<Entry<I>>, index: nat)
    requires InOrder(entries) && !Twins(entries) && index < |entries|
    ensures Ahead(entries, entries[index].descriptor) == index
  {
    AheadOfPrefix(entries, index, |entries|);
    assert entries[..|entries|] == entries;
  }

  lemma {:induction false} AheadOfPrefix<I>(entries: seq<Entry<I>>, index: nat, count: nat)
    requires InOrder(entries) && !Twins(entries) && index < |entries| && count <= |entries|
    ensures Ahead(entries[..count], entries[index].descriptor) == if count <= index then count else index
  {
    if count > 0 {
      AheadOfPrefix(entries, index, count - 1);
      assert entries[..count][..count - 1] == entries[..count - 1];
      DescriptorOrder(entries[count - 1].descriptor, entries[index].descriptor);
      if count - 1 != index {
        TwinFree(entries, count - 1, index);
      }
      hide Twins;
    }
  }

  lemma TwinFree<I>(entries: seq<Entry<I>>, i: nat, j: nat)
    requires !Twins(entries) && i < |entries| && j < |entries| && i != j
    ensures entries[i].descriptor != entries[j].descriptor
  {
    if i < j {
      assert entries[i].descriptor != entries[j].descriptor;
    } else {
      assert entries[j].descriptor != entries[i].descriptor;
    }
  }

  // ----- the choice -----

  ghost predicate Ranked<I(!new)>(entries: seq<Entry<I>>, identity: I, rank: nat) {
    exists entry :: entry in entries && entry.identity == identity && Ahead(entries, entry.descriptor) == rank
  }

  // The choice is ambiguous exactly if two monitors are described alike, unavailable exactly if
  // there are not that many, and otherwise the monitor with `index` others before it.
  lemma SelectsByRank<I(!new)>(entries: seq<Entry<I>>, index: nat)
    ensures var choice := Select(entries, index);
            && (choice == Err(AmbiguousDescriptors) <==> Twins(entries))
            && (choice == Err(Unavailable) <==> !Twins(entries) && index >= |entries|)
            && (choice.Ok? ==>
                  && choice.value.1 == index && choice.value.0.connected
                  && Ranked(entries, choice.value.0.selected, index))
  {
    AdjacentCheckIsExact(entries);
    var sorted := Sorted(entries);
    if !Twins(entries) && index < |entries| {
      EntryOfRank(entries, index);
    }
    hide Twins, AdjacentTwins, Sorted;
  }

  lemma EntryOfRank<I(!new)>(entries: seq<Entry<I>>, index: nat)
    requires !Twins(entries) && index < |entries|
    ensures var entry := Sorted(entries)[index];
            entry in entries && Ahead(entries, entry.descriptor) == index
  {
    SortedInOrder(entries);
    SortKeepsTwins(entries);
    var entry := Sorted(entries)[index];
    SortKeepsRanks(entries, entry.descriptor);
    RankInOrder(Sorted(entries), index);
    assert entry in multiset(Sorted(entries));
  }

  // Index 0 is the leftmost monitor and, of those, the topmost.
  lemma FirstIsLeftmost<I(!new)>(entries: seq<Entry<I>>)
    requires Select(entries, 0).Ok?
    ensures exists entry ::
              && entry in entries && entry.identity == Select(entries, 0).value.0.selected
              && forall other :: other in entries ==>
                   || entry.descriptor.x < other.descriptor.x
                   || (entry.descriptor.x == other.descriptor.x && entry.descriptor.y <= other.descriptor.y)
  {
    SelectsByRank(entries, 0);
    var identity := Select(entries, 0).value.0.selected;
    var entry :| entry in entries && entry.identity == identity && Ahead(entries, entry.descriptor) == 0;
    forall other | other in entries
      ensures entry.descriptor.x < other.descriptor.x
              || (entry.descriptor.x == other.descriptor.x && entry.descriptor.y <= other.descriptor.y)
    {
      NobodyAhead(entries, entry.descriptor, other);
      LeftComesFirst(other.descriptor, entry.descriptor);
    }
  }

  lemma {:induction false} NobodyAhead<I>(entries: seq<Entry<I>>, descriptor: Descriptor, other: Entry<I>)
    requires Ahead(entries, descriptor) == 0 && other in entries
    ensures !Before(other.descriptor, descriptor)
  {
    var front := entries[..|entries| - 1];
    if other != entries[|entries| - 1] {
      assert other in front;
      NobodyAhead(front, descriptor, other);
    }
  }

  // A monitor that comes back is found where it now stands in the order.
  lemma ReconnectsAtItsRank<I(!new)>(policy: Policy<I>, entries: seq<Entry<I>>)
    requires !Twins(entries) && Updated(policy, entries).change.Reconnected?
    ensures Ranked(entries, policy.selected, Updated(policy, entries).change.index)
  {
    var index := Updated(policy, entries).change.index;
    assert Sorted(entries)[index].identity == policy.selected;
    EntryOfRank(entries, index);
    hide Sorted, Position, Ahead;
  }
}
