/**
 Regrouping things in time order: pieces cut out by intervals, laid end to end, give the original back.
*/
module TimeOrder {
  import opened Sequences

  /** The items whose time lies in a half-open interval. */
  function Within<T>(items: seq<T>, key: T -> int, lo: int, hi: int): seq<T> {
    if items == [] then []
    else
      var last := items[|items| - 1];
      Within(items[..|items| - 1], key, lo, hi) + if lo <= key(last) < hi then [last] else []
  }

  lemma {:induction false} WithinKeeps<T>(items: seq<T>, key: T -> int, lo: int, hi: int, x: T)
    ensures x in Within(items, key, lo, hi) <==> x in items && lo <= key(x) < hi
  {
    if items != [] {
      assert items == items[..|items| - 1] + [items[|items| - 1]];
      WithinKeeps(items[..|items| - 1], key, lo, hi, x);
    }
  }

  /** The last of a sorted sequence is later than all before it. */
  lemma LastIsLatest<T>(items: seq<T>, key: T -> int, x: T)
    requires StrictlySortedBy(items, key) && items != [] && x in items[..|items| - 1]
    ensures key(x) < key(items[|items| - 1])
  {
    var i :| 0 <= i < |items| - 1 && items[..|items| - 1][i] == x;
    assert items[i] == x;
  }

  lemma {:induction false} WithinIsSorted<T>(items: seq<T>, key: T -> int, lo: int, hi: int)
    requires StrictlySortedBy(items, key)
    ensures StrictlySortedBy(Within(items, key, lo, hi), key)
  {
    if items != [] {
      var init, last := items[..|items| - 1], items[|items| - 1];
      WithinIsSorted(init, key, lo, hi);
      var before := Within(init, key, lo, hi);
      forall x, y | x in before && y in [last]
        ensures key(x) < key(y)
      {
        WithinKeeps(init, key, lo, hi, x);
        LastIsLatest(items, key, x);
      }
      SortedConcat(before, [last], key);
    }
  }

  datatype Block<+T> = Block(lo: int, hi: int, items: seq<T>)

  function Flatten<T>(blocks: seq<Block<T>>): seq<T> {
    if blocks == [] then [] else Flatten(blocks[..|blocks| - 1]) + blocks[|blocks| - 1].items
  }

  /** Each block is sorted and inside its bounds, and the bounds follow one another. */
  ghost predicate Laid<T>(blocks: seq<Block<T>>, key: T -> int) {
    && (forall i :: 0 <= i < |blocks| ==> StrictlySortedBy(blocks[i].items, key))
    && (forall i, x :: 0 <= i < |blocks| && x in blocks[i].items ==> blocks[i].lo <= key(x) < blocks[i].hi)
    && (forall i, j :: 0 <= i < j < |blocks| ==> blocks[i].hi <= blocks[j].lo)
  }

  lemma {:induction false} FlattenMembers<T>(blocks: seq<Block<T>>, x: T)
    ensures x in Flatten(blocks) <==> exists i :: 0 <= i < |blocks| && x in blocks[i].items
  {
    if blocks != [] {
      var init, last := blocks[..|blocks| - 1], blocks[|blocks| - 1];
      FlattenMembers(init, x);
      if x in last.items {
        assert x in blocks[|blocks| - 1].items;
      }
      if x in Flatten(init) {
        var i :| 0 <= i < |init| && x in init[i].items;
        assert x in blocks[i].items;
      }
      if i :| 0 <= i < |blocks| && x in blocks[i].items {
        assert i < |init| ==> x in init[i].items;
      }
    }
  }

  lemma SortedConcat<T>(a: seq<T>, b: seq<T>, key: T -> int)
    requires StrictlySortedBy(a, key) && StrictlySortedBy(b, key)
    requires forall x, y :: x in a && y in b ==> key(x) < key(y)
    ensures StrictlySortedBy(a + b, key)
  {
  }

  lemma {:induction false} LaidIsSorted<T>(blocks: seq<Block<T>>, key: T -> int)
    requires Laid(blocks, key)
    ensures StrictlySortedBy(Flatten(blocks), key)
  {
    if blocks != [] {
      var init, last := blocks[..|blocks| - 1], blocks[|blocks| - 1];
      LaidIsSorted(init, key);
      forall x, y | x in Flatten(init) && y in last.items
        ensures key(x) < key(y)
      {
        FlattenMembers(init, x);
        var i :| 0 <= i < |init| && x in init[i].items;
        assert blocks[i] == init[i] && blocks[i].hi <= blocks[|blocks| - 1].lo;
      }
      SortedConcat(Flatten(init), last.items, key);
    }
  }

  /** Blocks that are laid out in order and hold just the given items rebuild them. */
  lemma Rebuild<T>(blocks: seq<Block<T>>, items: seq<T>, key: T -> int)
    requires Laid(blocks, key) && StrictlySortedBy(items, key)
    requires forall x :: x in items ==> exists i :: 0 <= i < |blocks| && x in blocks[i].items
    requires forall i, x :: 0 <= i < |blocks| && x in blocks[i].items ==> x in items
    ensures Flatten(blocks) == items
  {
    LaidIsSorted(blocks, key);
    forall x
      ensures x in Flatten(blocks) <==> x in items
    {
      FlattenMembers(blocks, x);
    }
    SortedMembersDecide(Flatten(blocks), items, key);
  }

  // ----- holders and what is left over

  /** An interval that gathers the items inside it, or an item on its own. */
  datatype Slot<+H, +T> = Holder(lo: int, hi: int, holder: H) | Loose(at: int, item: T)

  function SlotAt<H, T>(slot: Slot<H, T>): int {
    if slot.Holder? then slot.lo else slot.at
  }

  ghost predicate Disjoint<H, T>(holders: seq<Slot<H, T>>) {
    && (forall i :: 0 <= i < |holders| ==> holders[i].Holder? && holders[i].lo < holders[i].hi)
    && (forall i, j :: 0 <= i < j < |holders| ==> holders[i].hi <= holders[j].lo)
  }

  predicate Covers<H, T>(slot: Slot<H, T>, time: int) {
    slot.Holder? && slot.lo <= time < slot.hi
  }

  predicate Uncovered<H, T>(holders: seq<Slot<H, T>>, time: int) {
    forall i :: 0 <= i < |holders| ==> !Covers(holders[i], time)
  }

  /** The items outside every holder. */
  function Leftover<H, T>(items: seq<T>, key: T -> int, holders: seq<Slot<H, T>>): seq<Slot<H, T>> {
    if items == [] then []
    else
      var last := items[|items| - 1];
      Leftover(items[..|items| - 1], key, holders) + if Uncovered(holders, key(last)) then [Loose(key(last), last)]
        else []
  }

  lemma {:induction false} LeftoverKeeps<H, T>(items: seq<T>, key: T -> int, holders: seq<Slot<H, T>>, slot: Slot<H, T>)
    ensures slot in Leftover(items, key, holders) <==>
            slot.Loose? && slot.item in items && slot.at == key(slot.item) && Uncovered(holders, slot.at)
  {
    if items != [] {
      assert items == items[..|items| - 1] + [items[|items| - 1]];
      LeftoverKeeps(items[..|items| - 1], key, holders, slot);
    }
  }

  lemma {:induction false} LeftoverIsSorted<H, T>(items: seq<T>, key: T -> int, holders: seq<Slot<H, T>>)
    requires StrictlySortedBy(items, key)
    ensures StrictlySortedBy(Leftover(items, key, holders), SlotAt<H, T>)
  {
    if items != [] {
      var init, last := items[..|items| - 1], items[|items| - 1];
      LeftoverIsSorted(init, key, holders);
      var before, next := Leftover(init, key, holders), Loose(key(last), last);
      forall a, b | a in before && b in [next]
        ensures SlotAt(a) < SlotAt(b)
      {
        LeftoverKeeps(init, key, holders, a);
        LastIsLatest(items, key, a.item);
      }
      SortedConcat(before, [next], SlotAt<H, T>);
    }
  }

  function BlockOf<H, T>(slot: Slot<H, T>, items: seq<T>, key: T -> int): Block<T> {
    if slot.Holder? then Block(slot.lo, slot.hi, Within(items, key, slot.lo, slot.hi))
    else Block(slot.at, slot.at + 1, [slot.item])
  }

  function Blocks<H, T>(slots: seq<Slot<H, T>>, items: seq<T>, key: T -> int): (r: seq<Block<T>>)
    ensures |r| == |slots| && forall i :: 0 <= i < |slots| ==> r[i] == BlockOf(slots[i], items, key)
  {
    seq(|slots|, i requires 0 <= i < |slots| => BlockOf(slots[i], items, key))
  }

  function HoldersOf<H, T>(slots: seq<Slot<H, T>>): seq<Slot<H, T>> {
    if slots == [] then []
    else HoldersOf(slots[..|slots| - 1]) + if slots[|slots| - 1].Holder? then [slots[|slots| - 1]] else []
  }

  lemma {:induction false} HoldersOfKeeps<H, T>(slots: seq<Slot<H, T>>, slot: Slot<H, T>)
    ensures slot in HoldersOf(slots) <==> slot in slots && slot.Holder?
  {
    if slots != [] {
      assert slots == slots[..|slots| - 1] + [slots[|slots| - 1]];
      HoldersOfKeeps(slots[..|slots| - 1], slot);
    }
  }

  lemma {:induction false} HoldersOfAreSorted<H, T>(slots: seq<Slot<H, T>>)
    requires StrictlySortedBy(slots, SlotAt<H, T>)
    ensures StrictlySortedBy(HoldersOf(slots), SlotAt<H, T>)
  {
    if slots != [] {
      var init, last := slots[..|slots| - 1], slots[|slots| - 1];
      HoldersOfAreSorted(init);
      var before := HoldersOf(init);
      forall a, b | a in before && b in [last]
        ensures SlotAt(a) < SlotAt(b)
      {
        HoldersOfKeeps(init, a);
        LastIsLatest(slots, SlotAt<H, T>, a);
      }
      SortedConcat(before, [last], SlotAt<H, T>);
    }
  }

  /** Holders and leftovers merged in time order. */
  function Arrange<H, T>(items: seq<T>, key: T -> int, holders: seq<Slot<H, T>>): seq<Slot<H, T>> {
    SortBy(holders + Leftover(items, key, holders), SlotAt<H, T>)
  }

  lemma ArrangeMembers<H, T>(items: seq<T>, key: T -> int, holders: seq<Slot<H, T>>, slot: Slot<H, T>)
    ensures slot in Arrange(items, key, holders) <==> slot in holders || slot in Leftover(items, key, holders)
  {
    SortByKeeps(holders + Leftover(items, key, holders), SlotAt<H, T>, slot);
  }

  lemma HoldersAreSlots<H, T>(holders: seq<Slot<H, T>>, slot: Slot<H, T>) returns (i: nat)
    requires Disjoint(holders) && slot in holders
    ensures i < |holders| && holders[i] == slot && slot.Holder? && slot.lo < slot.hi
  {
    i :| 0 <= i < |holders| && holders[i] == slot;
  }

  /** Two slots in the same place would be the same slot: an item at the start of a holder is inside it. */
  lemma SlotsDiffer<H, T>(items: seq<T>, key: T -> int, holders: seq<Slot<H, T>>, i: nat, j: nat)
    requires Disjoint(holders) && StrictlySortedBy(items, key)
    requires var all := holders + Leftover(items, key, holders); i < j < |all|
    ensures var all := holders + Leftover(items, key, holders); SlotAt(all[i]) != SlotAt(all[j])
  {
    var loose := Leftover(items, key, holders);
    var all := holders + loose;
    LeftoverIsSorted(items, key, holders);
    if j < |holders| {
      assert holders[i].lo < holders[i].hi <= holders[j].lo;
    } else {
      var b := loose[j - |holders|];
      LeftoverKeeps(items, key, holders, b);
      if i < |holders| {
        assert !Covers(holders[i], b.at);
      } else {
        assert SlotAt(loose[i - |holders|]) < SlotAt(b);
      }
    }
  }

  lemma ArrangeIsSorted<H, T>(items: seq<T>, key: T -> int, holders: seq<Slot<H, T>>)
    requires Disjoint(holders) && StrictlySortedBy(items, key)
    ensures StrictlySortedBy(Arrange(items, key, holders), SlotAt<H, T>)
  {
    var all := holders + Leftover(items, key, holders);
    forall i, j | 0 <= i < j < |all|
      ensures SlotAt(all[i]) != SlotAt(all[j])
    {
      SlotsDiffer(items, key, holders, i, j);
    }
    SortingDifferentKeys(all, SlotAt<H, T>);
  }

  lemma ArrangedIsLaid<H, T>(items: seq<T>, key: T -> int, holders: seq<Slot<H, T>>)
    requires Disjoint(holders) && StrictlySortedBy(items, key)
    ensures Laid(Blocks(Arrange(items, key, holders), items, key), key)
  {
    var slots := Arrange(items, key, holders);
    var blocks := Blocks(slots, items, key);
    ArrangeIsSorted(items, key, holders);
    forall i | 0 <= i < |slots|
      ensures StrictlySortedBy(blocks[i].items, key)
    {
      if slots[i].Holder? {
        WithinIsSorted(items, key, slots[i].lo, slots[i].hi);
      }
    }
    forall i, x | 0 <= i < |slots| && x in blocks[i].items
      ensures blocks[i].lo <= key(x) < blocks[i].hi
    {
      ArrangeMembers(items, key, holders, slots[i]);
      if slots[i].Holder? {
        WithinKeeps(items, key, slots[i].lo, slots[i].hi, x);
      } else {
        LeftoverKeeps(items, key, holders, slots[i]);
      }
    }
    forall i, j | 0 <= i < j < |slots|
      ensures blocks[i].hi <= blocks[j].lo
    {
      SlotsFollow(items, key, holders, slots[i], slots[j]);
    }
  }

  lemma SlotsFollow<H, T>(items: seq<T>, key: T -> int, holders: seq<Slot<H, T>>, a: Slot<H, T>, b: Slot<H, T>)
    requires Disjoint(holders) && SlotAt(a) < SlotAt(b)
    requires a in Arrange(items, key, holders) && b in Arrange(items, key, holders)
    ensures a.Holder? ==> a.hi <= SlotAt(b)
  {
    ArrangeMembers(items, key, holders, a);
    ArrangeMembers(items, key, holders, b);
    LeftoverKeeps(items, key, holders, a);
    LeftoverKeeps(items, key, holders, b);
    if a.Holder? {
      var i := HoldersAreSlots(holders, a);
      if b in holders {
        var j := HoldersAreSlots(holders, b);
        assert i < j;
      } else {
        assert !Covers(holders[i], b.at);
      }
    }
  }

  /** Reading the arrangement slot by slot gives every item once, in order. */
  lemma ArrangementKeepsItems<H, T>(items: seq<T>, key: T -> int, holders: seq<Slot<H, T>>)
    requires Disjoint(holders) && StrictlySortedBy(items, key)
    ensures Flatten(Blocks(Arrange(items, key, holders), items, key)) == items
  {
    var slots := Arrange(items, key, holders);
    var blocks := Blocks(slots, items, key);
    ArrangedIsLaid(items, key, holders);
    forall x | x in items
      ensures exists i :: 0 <= i < |blocks| && x in blocks[i].items
    {
      var i := SlotWith(items, key, holders, x);
      assert x in blocks[i].items;
    }
    forall i, x | 0 <= i < |blocks| && x in blocks[i].items
      ensures x in items
    {
      ArrangeMembers(items, key, holders, slots[i]);
      if slots[i].Holder? {
        WithinKeeps(items, key, slots[i].lo, slots[i].hi, x);
      } else {
        LeftoverKeeps(items, key, holders, slots[i]);
      }
    }
    Rebuild(blocks, items, key);
  }

  lemma SlotWith<H, T>(items: seq<T>, key: T -> int, holders: seq<Slot<H, T>>, x: T) returns (i: nat)
    requires Disjoint(holders) && x in items
    ensures i < |Arrange(items, key, holders)| && x in BlockOf(Arrange(items, key, holders)[i], items, key).items
  {
    var slots := Arrange(items, key, holders);
    var slot: Slot<H, T>;
    if Uncovered(holders, key(x)) {
      slot := Loose(key(x), x);
      LeftoverKeeps(items, key, holders, slot);
    } else {
      var k :| 0 <= k < |holders| && Covers(holders[k], key(x));
      slot := holders[k];
      WithinKeeps(items, key, slot.lo, slot.hi, x);
    }
    ArrangeMembers(items, key, holders, slot);
    i :| 0 <= i < |slots| && slots[i] == slot;
  }

  /** The arrangement has every holder once, in order. */
  lemma ArrangementKeepsHolders<H, T>(items: seq<T>, key: T -> int, holders: seq<Slot<H, T>>)
    requires Disjoint(holders) && StrictlySortedBy(items, key)
    ensures HoldersOf(Arrange(items, key, holders)) == holders
  {
    var slots := Arrange(items, key, holders);
    ArrangeIsSorted(items, key, holders);
    HoldersOfAreSorted(slots);
    forall i, j | 0 <= i < j < |holders|
      ensures SlotAt(holders[i]) < SlotAt(holders[j])
    {
      assert holders[i].lo < holders[i].hi <= holders[j].lo;
    }
    forall slot
      ensures slot in HoldersOf(slots) <==> slot in holders
    {
      HoldersOfKeeps(slots, slot);
      ArrangeMembers(items, key, holders, slot);
      LeftoverKeeps(items, key, holders, slot);
      if slot in holders {
        var _ := HoldersAreSlots(holders, slot);
      }
    }
    SortedMembersDecide(HoldersOf(slots), holders, SlotAt<H, T>);
  }
}
