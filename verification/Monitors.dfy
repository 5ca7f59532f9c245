// The choice of a fullscreen monitor from an inventory that the platform enumerates in any
// order, and the watch on the chosen one (apps/freemixd/src/program_surface.rs).
module Monitors {
  import opened Basics

  // Names are their UTF-8 bytes, which is how they are compared.
  datatype Descriptor = Descriptor(
    x: int, y: int, name: seq<byte>, width: nat, height: nat, refreshMillihertz: nat, scaleBits: nat)

  datatype Entry<I> = Entry(descriptor: Descriptor, identity: I)

  // ----- the order of descriptors -----

  predicate NameBefore(left: seq<byte>, right: seq<byte>) {
    if right == [] then false
    else if left == [] then true
    else if left[0] != right[0] then left[0] < right[0]
    else NameBefore(left[1..], right[1..])
  }

  predicate Before(left: Descriptor, right: Descriptor) {
    if left.x != right.x then left.x < right.x
    else if left.y != right.y then left.y < right.y
    else if left.name != right.name then NameBefore(left.name, right.name)
    else if left.width != right.width then left.width < right.width
    else if left.height != right.height then left.height < right.height
    else if left.refreshMillihertz != right.refreshMillihertz then left.refreshMillihertz < right.refreshMillihertz
    else left.scaleBits < right.scaleBits
  }

  lemma {:induction false} NameOrder(left: seq<byte>, right: seq<byte>)
    ensures left == right || NameBefore(left, right) || NameBefore(right, left)
    ensures !(NameBefore(left, right) && NameBefore(right, left))
    ensures left == right ==> !NameBefore(left, right)
  {
    if left != [] && right != [] && left[0] == right[0] {
      NameOrder(left[1..], right[1..]);
      assert left == [left[0]] + left[1..] && right == [right[0]] + right[1..];
    }
  }

  lemma {:induction false} NameTransitive(left: seq<byte>, middle: seq<byte>, right: seq<byte>)
    requires NameBefore(left, middle) && NameBefore(middle, right)
    ensures NameBefore(left, right)
  {
    if left != [] && left[0] == middle[0] && middle[0] == right[0] {
      NameTransitive(left[1..], middle[1..], right[1..]);
    }
  }

  // Exactly one of before, equal, after; and before is transitive.
  lemma DescriptorOrder(left: Descriptor, right: Descriptor)
    ensures left == right || Before(left, right) || Before(right, left)
    ensures !(Before(left, right) && Before(right, left))
    ensures left == right ==> !Before(left, right)
  {
    NameOrder(left.name, right.name);
  }

  lemma DescriptorTransitive(left: Descriptor, middle: Descriptor, right: Descriptor)
    requires Before(left, middle) && Before(middle, right)
    ensures Before(left, right)
  {
    NameOrder(left.name, right.name);
    NameOrder(left.name, middle.name);
    NameOrder(middle.name, right.name);
    if NameBefore(left.name, middle.name) && NameBefore(middle.name, right.name) {
      NameTransitive(left.name, middle.name, right.name);
    }
  }

  // ----- the stable sort -----

  predicate InOrder<I>(entries: seq<Entry<I>>) {
    forall i, j :: 0 <= i < j < |entries| ==> !Before(entries[j].descriptor, entries[i].descriptor)
  }

  // Behind every entry that is not after it.
  function Inserted<I>(entries: seq<Entry<I>>, entry: Entry<I>): (all: seq<Entry<I>>)
    ensures multiset(all) == multiset(entries) + multiset{entry}
    ensures |all| == |entries| + 1
  {
    if entries == [] || !Before(entry.descriptor, entries[|entries| - 1].descriptor) then entries + [entry]
    else
      var front, last := entries[..|entries| - 1], entries[|entries| - 1];
      assert entries == front + [last];
      Inserted(front, entry) + [last]
  }

  function Sorted<I>(entries: seq<Entry<I>>): (sorted: seq<Entry<I>>)
    ensures multiset(sorted) == multiset(entries)
    ensures |sorted| == |entries|
  {
    if entries == [] then []
    else
      assert entries == entries[..|entries| - 1] + [entries[|entries| - 1]];
      Inserted(Sorted(entries[..|entries| - 1]), entries[|entries| - 1])
  }

  lemma {:induction false} InsertedInOrder<I>(entries: seq<Entry<I>>, entry: Entry<I>)
    requires InOrder(entries)
    ensures InOrder(Inserted(entries, entry))
  {
    if entries != [] {
      var front, last := entries[..|entries| - 1], entries[|entries| - 1];
      if Before(entry.descriptor, last.descriptor) {
        InsertedInOrder(front, entry);
        var inner := Inserted(front, entry);
        forall i | 0 <= i < |inner| ensures !Before(last.descriptor, inner[i].descriptor) {
          assert inner[i] in multiset(front) + multiset{entry};
          DescriptorOrder(entry.descriptor, last.descriptor);
          if inner[i] != entry {
            assert inner[i] in front;
          }
        }
      } else {
        forall i | 0 <= i < |entries| ensures !Before(entry.descriptor, entries[i].descriptor) {
          NotBeforeTransitive(entries[i].descriptor, last.descriptor, entry.descriptor);
        }
      }
    }
  }

  lemma NotBeforeTransitive(left: Descriptor, middle: Descriptor, right: Descriptor)
    requires left == middle || !Before(middle, left)
    requires !Before(right, middle)
    ensures !Before(right, left)
  {
    DescriptorOrder(left, middle);
    DescriptorOrder(middle, right);
    DescriptorOrder(left, right);
    if Before(left, middle) && Before(middle, right) {
      DescriptorTransitive(left, middle, right);
    }
  }

  lemma {:induction false} SortedInOrder<I>(entries: seq<Entry<I>>)
    ensures InOrder(Sorted(entries))
  {
    if entries != [] {
      SortedInOrder(entries[..|entries| - 1]);
      InsertedInOrder(Sorted(entries[..|entries| - 1]), entries[|entries| - 1]);
    }
  }

  function OfDescriptor<I>(entries: seq<Entry<I>>, descriptor: Descriptor): (same: seq<Entry<I>>) {
    if entries == [] then []
    else
      var front := OfDescriptor(entries[..|entries| - 1], descriptor);
      if entries[|entries| - 1].descriptor == descriptor then front + [entries[|entries| - 1]] else front
  }

  lemma OfDescriptorLast<I>(entries: seq<Entry<I>>, last: Entry<I>, descriptor: Descriptor)
    ensures OfDescriptor(entries + [last], descriptor) ==
              OfDescriptor(entries, descriptor) + (if last.descriptor == descriptor then [last] else [])
  {
    assert (entries + [last])[..|entries|] == entries;
  }

  lemma {:induction false} InsertedIsStable<I>(entries: seq<Entry<I>>, entry: Entry<I>, descriptor: Descriptor)
    ensures OfDescriptor(Inserted(entries, entry), descriptor) == OfDescriptor(entries + [entry], descriptor)
  {
    OfDescriptorLast(entries, entry, descriptor);
    if entries != [] && Before(entry.descriptor, entries[|entries| - 1].descriptor) {
      var front, last := entries[..|entries| - 1], entries[|entries| - 1];
      InsertedIsStable(front, entry, descriptor);
      OfDescriptorLast(front, entry, descriptor);
      OfDescriptorLast(Inserted(front, entry), last, descriptor);
      DescriptorOrder(entry.descriptor, last.descriptor);
    }
  }

  // The sort orders the inventory and keeps entries with one descriptor in their given order,
  // which leaves no freedom in its result.
  lemma {:induction false} SortIsStable<I>(entries: seq<Entry<I>>, descriptor: Descriptor)
    ensures OfDescriptor(Sorted(entries), descriptor) == OfDescriptor(entries, descriptor)
    ensures InOrder(Sorted(entries)) && multiset(Sorted(entries)) == multiset(entries)
  {
    SortedInOrder(entries);
    hide Inserted, InOrder, Before, OfDescriptor;
    if entries == [] {
      assert Sorted(entries) == entries;
    } else {
      var front, last := entries[..|entries| - 1], entries[|entries| - 1];
      SortIsStable(front, descriptor);
      InsertedIsStable(Sorted(front), last, descriptor);
      OfDescriptorLast(Sorted(front), last, descriptor);
      OfDescriptorLast(front, last, descriptor);
      assert entries == front + [last];
    }
  }

  // ----- twins -----

  predicate Has<I>(entries: seq<Entry<I>>, descriptor: Descriptor) {
    exists i :: 0 <= i < |entries| && entries[i].descriptor == descriptor
  }

  // Two entries that cannot be told apart by their descriptors.
  predicate Twins<I>(entries: seq<Entry<I>>) {
    exists i, j :: 0 <= i < j < |entries| && entries[i].descriptor == entries[j].descriptor
  }

  predicate AdjacentTwins<I>(entries: seq<Entry<I>>) {
    exists i :: 0 < i < |entries| && entries[i].descriptor == entries[i - 1].descriptor
  }

  lemma TwinsOfLast<I>(entries: seq<Entry<I>>, last: Entry<I>)
    ensures Twins(entries + [last]) <==> Twins(entries) || Has(entries, last.descriptor)
  {
    var whole := entries + [last];
    if Twins(entries) {
      var i, j :| 0 <= i < j < |entries| && entries[i].descriptor == entries[j].descriptor;
      assert whole[i].descriptor == whole[j].descriptor;
    }
    if Has(entries, last.descriptor) {
      var i :| 0 <= i < |entries| && entries[i].descriptor == last.descriptor;
      assert whole[i].descriptor == whole[|entries|].descriptor;
    }
    if Twins(whole) {
      var i, j :| 0 <= i < j < |whole| && whole[i].descriptor == whole[j].descriptor;
      assert entries[i].descriptor == whole[j].descriptor;
      assert j < |entries| ==> entries[j] == whole[j];
    }
  }

  lemma HasInserted<I>(entries: seq<Entry<I>>, entry: Entry<I>, descriptor: Descriptor)
    ensures Has(Inserted(entries, entry), descriptor) <==> Has(entries, descriptor) || entry.descriptor == descriptor
  {
    var all := Inserted(entries, entry);
    SameMembers(all, entries + [entry]);
    HasMember(all, descriptor);
    HasMember(entries + [entry], descriptor);
    HasMember(entries, descriptor);
  }

  lemma SameMembers<I>(left: seq<Entry<I>>, right: seq<Entry<I>>)
    requires multiset(left) == multiset(right)
    ensures forall entry :: entry in left <==> entry in right
  {
    forall entry ensures entry in left <==> entry in right {
      assert entry in multiset(left) <==> entry in multiset(right);
    }
  }

  lemma HasMember<I>(entries: seq<Entry<I>>, descriptor: Descriptor)
    ensures Has(entries, descriptor) <==> exists entry :: entry in entries && entry.descriptor == descriptor
  {
    if Has(entries, descriptor) {
      var i :| 0 <= i < |entries| && entries[i].descriptor == descriptor;
      assert entries[i] in entries;
    }
    if entry :| entry in entries && entry.descriptor == descriptor {
      var i :| 0 <= i < |entries| && entries[i] == entry;
      assert entries[i].descriptor == descriptor;
    }
  }

  lemma HasSame<I>(left: seq<Entry<I>>, right: seq<Entry<I>>, descriptor: Descriptor)
    requires multiset(left) == multiset(right)
    ensures Has(left, descriptor) <==> Has(right, descriptor)
  {
    SameMembers(left, right);
    HasMember(left, descriptor);
    HasMember(right, descriptor);
  }

  lemma {:induction false} TwinsInserted<I>(entries: seq<Entry<I>>, entry: Entry<I>)
    ensures Twins(Inserted(entries, entry)) <==> Twins(entries) || Has(entries, entry.descriptor)
  {
    TwinsOfLast(entries, entry);
    if entries != [] && Before(entry.descriptor, entries[|entries| - 1].descriptor) {
      var front, last := entries[..|entries| - 1], entries[|entries| - 1];
      TwinsInserted(front, entry);
      TwinsOfLast(Inserted(front, entry), last);
      HasInserted(front, entry, last.descriptor);
      TwinsOfLast(front, last);
      assert entries == front + [last];
      DescriptorOrder(entry.descriptor, last.descriptor);
      hide Twins, Before;
      assert Has(entries, entry.descriptor) <==> Has(front, entry.descriptor) by {
        HasMember(entries, entry.descriptor);
        HasMember(front, entry.descriptor);
      }
    }
  }

  lemma {:induction false} SortKeepsTwins<I>(entries: seq<Entry<I>>)
    ensures Twins(Sorted(entries)) <==> Twins(entries)
  {
    hide Inserted, Twins, Has;
    if entries == [] {
      assert Sorted(entries) == entries;
    } else {
      var front, last := entries[..|entries| - 1], entries[|entries| - 1];
      SortKeepsTwins(front);
      TwinsInserted(Sorted(front), last);
      TwinsOfLast(front, last);
      assert entries == front + [last];
      HasSame(Sorted(front), front, last.descriptor);
    }
  }

  lemma AdjacentAmongSorted<I>(sorted: seq<Entry<I>>)
    requires InOrder(sorted)
    ensures AdjacentTwins(sorted) <==> Twins(sorted)
  {
    if Twins(sorted) {
      var i, j :| 0 <= i < j < |sorted| && sorted[i].descriptor == sorted[j].descriptor;
      DescriptorOrder(sorted[i].descriptor, sorted[i + 1].descriptor);
      assert !Before(sorted[i + 1].descriptor, sorted[i].descriptor);
      assert i + 1 < j ==> !Before(sorted[j].descriptor, sorted[i + 1].descriptor);
      hide Before, InOrder;
      var next := i + 1;
      assert sorted[next].descriptor == sorted[next - 1].descriptor;
    }
    if AdjacentTwins(sorted) {
      var i :| 0 < i < |sorted| && sorted[i].descriptor == sorted[i - 1].descriptor;
      assert sorted[i - 1].descriptor == sorted[i].descriptor;
    }
  }

  // Looking at neighbours after sorting finds a pair of twins exactly when there is one.
  lemma AdjacentCheckIsExact<I>(entries: seq<Entry<I>>)
    ensures AdjacentTwins(Sorted(entries)) <==> Twins(entries)
  {
    hide *;
    SortKeepsTwins(entries);
    SortedInOrder(entries);
    AdjacentAmongSorted(Sorted(entries));
  }

  // ----- the choice -----

  datatype Policy<I> = Policy(selected: I, connected: bool)

  datatype SelectionError = Unavailable | AmbiguousDescriptors

  function Select<I>(entries: seq<Entry<I>>, index: nat): (choice: Result<(Policy<I>, nat), SelectionError>) {
    var sorted := Sorted(entries);
    if AdjacentTwins(sorted) then Err(AmbiguousDescriptors)
    else if index < |sorted| then Ok((Policy(sorted[index].identity, true), index))
    else Err(Unavailable)
  }

  lemma LastsAgree<I>(left: seq<Entry<I>>, right: seq<Entry<I>>)
    requires InOrder(left) && InOrder(right) && !Twins(left) && multiset(left) == multiset(right)
    requires left != [] && right != []
    ensures left[|left| - 1] == right[|right| - 1]
  {
    var a, b := left[|left| - 1], right[|right| - 1];
    assert a in multiset(left) && b in multiset(right);
    assert a in right && b in left;
    var i :| 0 <= i < |left| && left[i] == b;
    var j :| 0 <= j < |right| && right[j] == a;
    DescriptorOrder(a.descriptor, b.descriptor);
    assert !Before(a.descriptor, b.descriptor);
    assert !Before(b.descriptor, a.descriptor);
    assert i == |left| - 1;
  }

  lemma WithoutLast<I>(entries: seq<Entry<I>>)
    requires entries != []
    ensures var last := |entries| - 1;
            && multiset(entries[..last]) == multiset(entries) - multiset{entries[last]}
            && (InOrder(entries) ==> InOrder(entries[..last]))
            && (!Twins(entries) ==> !Twins(entries[..last]))
  {
    var last := |entries| - 1;
    assert entries == entries[..last] + [entries[last]];
    TwinsOfLast(entries[..last], entries[last]);
  }

  lemma SameSize<I>(left: seq<Entry<I>>, right: seq<Entry<I>>)
    requires multiset(left) == multiset(right)
    ensures |left| == |right|
  {
    assert |left| == |multiset(left)| && |right| == |multiset(right)|;
  }

  lemma {:induction false} OrderIsUnique<I>(left: seq<Entry<I>>, right: seq<Entry<I>>)
    requires InOrder(left) && InOrder(right) && !Twins(left) && multiset(left) == multiset(right)
    ensures left == right
  {
    SameSize(left, right);
    if left != [] {
      LastsAgree(left, right);
      hide Twins, InOrder;
      WithoutLast(left);
      WithoutLast(right);
      var last := |left| - 1;
      OrderIsUnique(left[..last], right[..last]);
      assert left == left[..last] + [left[last]] && right == right[..last] + [right[last]];
    }
  }

  // Any two enumerations of one inventory give the same choice or the same error.
  lemma SelectIgnoresEnumeration<I>(left: seq<Entry<I>>, right: seq<Entry<I>>, index: nat)
    requires multiset(left) == multiset(right)
    ensures Select(left, index) == Select(right, index)
    ensures Twins(left) <==> Twins(right)
  {
    AdjacentCheckIsExact(left);
    AdjacentCheckIsExact(right);
    SortedInOrder(left);
    SortedInOrder(right);
    SortKeepsTwins(left);
    SortKeepsTwins(right);
    if !Twins(left) {
      OrderIsUnique(Sorted(left), Sorted(right));
    } else if !Twins(right) {
      OrderIsUnique(Sorted(right), Sorted(left));
    }
  }

  // ----- watching the chosen monitor -----

  datatype Change = Unchanged | Disconnected | Reconnected(index: nat)

  ghost predicate Present<I>(entries: seq<Entry<I>>, identity: I) {
    exists i :: 0 <= i < |entries| && entries[i].identity == identity
  }

  function Position<I(==)>(entries: seq<Entry<I>>, identity: I): (index: Option<nat>)
    ensures index.None? <==> !Present(entries, identity)
    ensures index.Some? ==>
              && index.value < |entries| && entries[index.value].identity == identity
              && forall i :: 0 <= i < index.value ==> entries[i].identity != identity
  {
    if entries == [] then None
    else
      var last := |entries| - 1;
      match Position(entries[..last], identity)
      case Some(index) =>
        assert entries[index].identity == identity;
        Some(index)
      case None => if entries[last].identity == identity then Some(last) else None
  }

  datatype Update<I> = Update(policy: Policy<I>, change: Change)

  function Updated<I(==)>(policy: Policy<I>, entries: seq<Entry<I>>): (update: Update<I>) {
    match (policy.connected, Position(Sorted(entries), policy.selected))
    case (true, None) => Update(policy.(connected := false), Disconnected)
    case (false, Some(index)) => Update(policy.(connected := true), Reconnected(index))
    case _ => Update(policy, Unchanged)
  }

  // The monitor counts as connected exactly while it is in the inventory, in whatever order.
  lemma UpdateFollowsPresence<I>(policy: Policy<I>, entries: seq<Entry<I>>)
    ensures var update := Updated(policy, entries);
            && update.policy.selected == policy.selected
            && (update.policy.connected <==> Present(entries, policy.selected))
            && (update.change.Disconnected? <==> policy.connected && !Present(entries, policy.selected))
            && (update.change.Reconnected? <==> !policy.connected && Present(entries, policy.selected))
  {
    SamePresence(Sorted(entries), entries, policy.selected);
  }

  lemma SamePresence<I>(left: seq<Entry<I>>, right: seq<Entry<I>>, identity: I)
    requires multiset(left) == multiset(right)
    ensures Present(left, identity) <==> Present(right, identity)
  {
    if Present(left, identity) {
      var i :| 0 <= i < |left| && left[i].identity == identity;
      assert left[i] in multiset(left);
      assert left[i] in right;
    }
    if Present(right, identity) {
      var i :| 0 <= i < |right| && right[i].identity == identity;
      assert right[i] in multiset(right);
      assert right[i] in left;
    }
  }

  // The new policy and the kind of change do not depend on the enumeration; without twins the
  // place of a returning monitor does not either.
  lemma UpdateIgnoresEnumeration<I>(policy: Policy<I>, left: seq<Entry<I>>, right: seq<Entry<I>>)
    requires multiset(left) == multiset(right)
    ensures Updated(policy, left).policy == Updated(policy, right).policy
    ensures Updated(policy, left).change.Disconnected? <==> Updated(policy, right).change.Disconnected?
    ensures Updated(policy, left).change.Reconnected? <==> Updated(policy, right).change.Reconnected?
    ensures !Twins(left) ==> Updated(policy, left) == Updated(policy, right)
  {
    UpdateFollowsPresence(policy, left);
    UpdateFollowsPresence(policy, right);
    SamePresence(left, right, policy.selected);
    if !Twins(left) {
      SortedInOrder(left);
      SortedInOrder(right);
      SortKeepsTwins(left);
      OrderIsUnique(Sorted(left), Sorted(right));
    }
  }

  // A run of updates, keeping only the changes.
  datatype Watch<I> = Watch(policy: Policy<I>, edges: seq<Change>)

  function Watched<I(==)>(policy: Policy<I>, inventories: seq<seq<Entry<I>>>): (watch: Watch<I>) {
    if inventories == [] then Watch(policy, [])
    else
      var before := Watched(policy, inventories[..|inventories| - 1]);
      var update := Updated(before.policy, inventories[|inventories| - 1]);
      Watch(update.policy, if update.change.Unchanged? then before.edges else before.edges + [update.change])
  }

  predicate Alternate(edges: seq<Change>) {
    forall i :: 0 <= i < |edges| ==> if i % 2 == 0 then edges[i].Disconnected? else edges[i].Reconnected?
  }

  // Over every run of updates after a choice the chosen identity stays, and the changes are a
  // disconnection, a reconnection, a disconnection and so on.
  lemma {:induction false} ChangesAlternate<I>(policy: Policy<I>, inventories: seq<seq<Entry<I>>>)
    requires policy.connected
    ensures var watch := Watched(policy, inventories);
            && watch.policy.selected == policy.selected
            && (watch.policy.connected <==> |watch.edges| % 2 == 0)
            && Alternate(watch.edges)
            && (inventories != [] ==>
                  (watch.policy.connected <==> Present(inventories[|inventories| - 1], policy.selected)))
  {
    hide Updated, Present;
    if inventories != [] {
      var front, last := inventories[..|inventories| - 1], inventories[|inventories| - 1];
      ChangesAlternate(policy, front);
      var before := Watched(policy, front);
      UpdateFollowsPresence(before.policy, last);
      EdgeAlternates(before.edges, Updated(before.policy, last).change);
    }
  }

  lemma EdgeAlternates(edges: seq<Change>, change: Change)
    requires Alternate(edges)
    ensures change.Disconnected? && |edges| % 2 == 0 ==> Alternate(edges + [change]) && |edges + [change]| % 2 == 1
    ensures change.Reconnected? && |edges| % 2 == 1 ==> Alternate(edges + [change]) && |edges + [change]| % 2 == 0
  {
  }

  lemma PositionIs<I>(entries: seq<Entry<I>>, identity: I, index: nat)
    requires index <= |entries| && forall i :: 0 <= i < index ==> entries[i].identity != identity
    requires index < |entries| ==> entries[index].identity == identity
    ensures Position(entries, identity) == if index < |entries| then Some(index) else None
  {
    if index < |entries| {
      assert Present(entries, identity);
    }
  }

  lemma UpdatedIs<I>(policy: Policy<I>, entries: seq<Entry<I>>, sorted: seq<Entry<I>>, index: nat)
    requires sorted == Sorted(entries)
    requires index <= |sorted| && forall i :: 0 <= i < index ==> sorted[i].identity != policy.selected
    requires index < |sorted| ==> sorted[index].identity == policy.selected
    ensures Updated(policy, entries) ==
              if policy.connected && index == |sorted| then Update(policy.(connected := false), Disconnected)
              else if !policy.connected && index < |sorted| then Update(policy.(connected := true), Reconnected(index))
              else Update(policy, Unchanged)
  {
    PositionIs(sorted, policy.selected, index);
    hide Position, Sorted;
  }

  // ----- the policy as the event loop updates it -----

  // The platform's stable sort, in place.
  method SortMonitorEntries<I>(inventory: array<Entry<I>>)
    modifies inventory
    ensures inventory[..] == Sorted(old(inventory[..]))
  {
    var sorted := Sorted(inventory[..]);
    hide Sorted;
    var i := 0;
    while i < inventory.Length
      invariant 0 <= i <= inventory.Length == |sorted|
      invariant forall k :: 0 <= k < i ==> inventory[k] == sorted[k]
    {
      inventory[i] := sorted[i];
      i := i + 1;
    }
    assert inventory[..] == sorted;
  }

  class MonitorPolicy<I(==)> {
    var selected: I
    var connected: bool

    constructor (policy: Policy<I>)
      ensures selected == policy.selected && connected == policy.connected
    {
      selected, connected := policy.selected, policy.connected;
    }

    method UpdateWith(inventory: array<Entry<I>>) returns (change: Change)
      modifies this, inventory
      ensures inventory[..] == Sorted(old(inventory[..]))
      ensures Update(Policy(selected, connected), change)
                == Updated(Policy(old(selected), old(connected)), old(inventory[..]))
    {
      hide *;
      SortMonitorEntries(inventory);
      var index := 0;
      while index < inventory.Length && inventory[index].identity != selected
        invariant 0 <= index <= inventory.Length
        invariant forall i :: 0 <= i < index ==> inventory[i].identity != selected
      {
        index := index + 1;
      }
      UpdatedIs(Policy(selected, connected), old(inventory[..]), inventory[..], index);
      if connected && index == inventory.Length {
        connected := false;
        return Disconnected;
      }
      if !connected && index < inventory.Length {
        connected := true;
        return Reconnected(index);
      }
      return Unchanged;
    }
  }

  lemma SelectOfSorted<I>(entries: seq<Entry<I>>, sorted: seq<Entry<I>>, index: nat)
    requires sorted == Sorted(entries)
    ensures Select(entries, index) ==
              if AdjacentTwins(sorted) then Err(AmbiguousDescriptors)
              else if index < |sorted| then Ok((Policy(sorted[index].identity, true), index)) else Err(Unavailable)
  {
    hide Sorted;
  }

  method SelectMonitor<I>(inventory: array<Entry<I>>, index: nat)
    returns (choice: Result<(Policy<I>, nat), SelectionError>)
    modifies inventory
    ensures inventory[..] == Sorted(old(inventory[..]))
    ensures choice == Select(old(inventory[..]), index)
  {
    SortMonitorEntries(inventory);
    ghost var sorted := inventory[..];
    SelectOfSorted(old(inventory[..]), sorted, index);
    hide Sorted, Select, Before;
    var i := 1;
    while i < inventory.Length
      invariant 1 <= i
      invariant inventory[..] == sorted
      invariant forall j :: 0 < j < i && j < inventory.Length ==> sorted[j].descriptor != sorted[j - 1].descriptor
    {
      if inventory[i].descriptor == inventory[i - 1].descriptor {
        assert sorted[i].descriptor == sorted[i - 1].descriptor;
        return Err(AmbiguousDescriptors);
      }
      i := i + 1;
    }
    if index < inventory.Length {
      return Ok((Policy(inventory[index].identity, true), index));
    }
    return Err(Unavailable);
  }
}
