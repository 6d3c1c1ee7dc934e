/**
 * Placement queries on the personal inventory: `HasSpaceForItem`,
 * `FindFreeSlot` and `CheckNoDrop`.  They read the inventory only through
 * `GetItem`, over the personal slots 22..29 and the slots of the bags in them.
 */
module InventorySpace {
  import opened Wrappers
  import opened Constants
  import opened ItemData
  import opened SlotCodec
  import I = Items
  import opened InventoryState

  /** The first bag slot of a personal slot's bag. */
  function BagBase(i: int16): (r: int16)
    requires IsPersonalSlot(i)
    ensures r == IDX_INV_BAG + (i - 22) * MAX_ITEMS_PER_BAG
  {
    CalcSlotId(i, 0)
  }

  /** The `k`-th slot of the bag in personal slot `i`; bags wider than ten reach into the next bag's ids. */
  function BagSlot(i: int16, k: int): int16
    requires IsPersonalSlot(i) && 0 <= k < 0x100
  {
    BagBase(i) + k as int16
  }

  /** The definition's field as read through a possibly missing definition. */
  function DefOf(x: Inst): ItemDef
  {
    DefOrZero(I.GetItemDef(x))
  }

  // ---------------------------------------------------------------------------
  // HasSpaceForItem (Item.cpp:491-573).
  // ---------------------------------------------------------------------------

  /** The quantity still to place, or room for all of it. */
  datatype Tally = Room | Short(quantity: int16)

  /** The slot holds a stack of the same item that is not full. */
  predicate OpenStack(b: Buckets, item: ItemDef, s: int16)
  {
    var x := GetItem(b, s);
    x.Some? && DefOf(x.value).id == item.id && x.value.charges < DefOf(x.value).stackSize
  }

  /** First pass, one slot: a stack of the same item with room takes what fits. */
  function StackStep(b: Buckets, item: ItemDef, s: int16, q: int16): Tally
  {
    if OpenStack(b, item, s) then
      var x := GetItem(b, s).value;
      var left := DefOf(x).stackSize - x.charges;
      if q <= left then Room else Short(ToInt16(q - left))
    else Short(q)
  }

  /** First pass over the bag in personal slot `i`, from its `k`-th slot up to `n`. */
  function StackBag(b: Buckets, item: ItemDef, i: int16, k: int, n: int, q: int16): Tally
    requires IsPersonalSlot(i) && 0 <= k <= n < 0x100
    decreases n - k
  {
    if k == n then Short(q)
    else match StackStep(b, item, BagSlot(i, k), q)
      case Room => Room
      case Short(q') => StackBag(b, item, i, k + 1, n, q')
  }

  /** First pass, one personal slot: the slot, then its bag's slots. */
  function StackEntry(b: Buckets, item: ItemDef, i: int16, q: int16): Tally
    requires IsPersonalSlot(i)
  {
    match StackStep(b, item, i, q)
    case Room => Room
    case Short(q') =>
      var x := GetItem(b, i);
      if IsBag(x) then StackBag(b, item, i, 0, DefOf(x.value).bagSlots as int, q') else Short(q')
  }

  /** First pass from personal slot `i` on. */
  function StackSlots(b: Buckets, item: ItemDef, i: int16, q: int16): Tally
    requires 22 <= i <= 30
    decreases 30 - i
  {
    if i == 30 then Short(q)
    else match StackEntry(b, item, i, q)
      case Room => Room
      case Short(q') => StackSlots(b, item, i + 1, q')
  }

  /** Second pass, one empty slot: one item, or one full stack, fits there. */
  function EmptyStep(item: ItemDef, q: int16): Tally
  {
    if !item.stackable then (if q == 1 then Room else Short(ToInt16(q - 1)))
    else if q <= item.stackSize then Room
    else Short(ToInt16(q - item.stackSize))
  }

  /** Second pass over the bag in personal slot `i`, from its `k`-th slot up to `n`. */
  function EmptyBag(b: Buckets, item: ItemDef, i: int16, k: int, n: int, q: int16): Tally
    requires IsPersonalSlot(i) && 0 <= k <= n < 0x100
    decreases n - k
  {
    if k == n then Short(q)
    else if GetItem(b, BagSlot(i, k)).Some? then EmptyBag(b, item, i, k + 1, n, q)
    else match EmptyStep(item, q)
      case Room => Room
      case Short(q') => EmptyBag(b, item, i, k + 1, n, q')
  }

  /** The bag in the slot is one the item may go in. */
  predicate FittingBag(item: ItemDef, x: Option<Inst>)
  {
    IsBag(x) && CanItemFitInContainer(Some(item), I.GetItemDef(x.value))
  }

  /** Second pass, one personal slot: the slot if empty, else the empty slots of a bag the item fits in. */
  function EmptyEntry(b: Buckets, item: ItemDef, i: int16, q: int16): Tally
    requires IsPersonalSlot(i)
  {
    var x := GetItem(b, i);
    if x.None? then EmptyStep(item, q)
    else if FittingBag(item, x) then EmptyBag(b, item, i, 0, DefOf(x.value).bagSlots as int, q)
    else Short(q)
  }

  /** Second pass from personal slot `i` on. */
  function EmptySlots(b: Buckets, item: ItemDef, i: int16, q: int16): Tally
    requires 22 <= i <= 30
    decreases 30 - i
  {
    if i == 30 then Short(q)
    else match EmptyEntry(b, item, i, q)
      case Room => Room
      case Short(q') => EmptySlots(b, item, i + 1, q')
  }

  /** One slot of the second pass that leaves no room passes the rest on to the next slot. */
  lemma EmptySlotsStep(b: Buckets, item: ItemDef, i: int16, q: int16, e: Tally)
    requires IsPersonalSlot(i) && e == EmptyEntry(b, item, i, q)
    ensures e.Room? ==> EmptySlots(b, item, i, q) == Room
    ensures e.Short? ==> EmptySlots(b, item, i, q) == EmptySlots(b, item, i + 1, e.quantity)
  {
  }

  /** `HasSpaceForItem`: a stackable item first fills open stacks, then anything goes into empty slots. */
  function HasSpace(b: Buckets, item: ItemDef, quantity: int16): bool
  {
    match (if item.stackable then StackSlots(b, item, 22, quantity) else Short(quantity))
    case Room => true
    case Short(q) => EmptySlots(b, item, 22, q) == Room
  }

  method HasSpaceForItem(b: Buckets, item: ItemDef, quantity: int16) returns (r: bool)
    ensures r == HasSpace(b, item, quantity)
  {
    var q := quantity;
    if item.stackable {
      var t := FillOpenStacks(b, item, q);
      if t.Room? {
        return true;
      }
      q := t.quantity;
    }
    var t := FillEmptySlots(b, item, q);
    return t.Room?;
  }

  /** The first pass of `HasSpaceForItem`. */
  method FillOpenStacks(b: Buckets, item: ItemDef, quantity: int16) returns (t: Tally)
    ensures t == StackSlots(b, item, 22, quantity)
  {
    var q := quantity;
    var i: int16 := 22;
    while i <= 29
      invariant 22 <= i <= 30
      invariant StackSlots(b, item, 22, quantity) == StackSlots(b, item, i, q)
      decreases 30 - i
    {
      var x := GetItem(b, i);
      if OpenStack(b, item, i) {
        var left := DefOf(x.value).stackSize - x.value.charges;
        if q <= left {
          return Room;
        }
        q := ToInt16(q - left);
      }
      if IsBag(x) {
        var inBag := FillOpenStacksInBag(b, item, i, DefOf(x.value).bagSlots as int, q);
        if inBag.Room? {
          return Room;
        }
        q := inBag.quantity;
      }
      i := i + 1;
    }
    return Short(q);
  }

  method FillOpenStacksInBag(b: Buckets, item: ItemDef, i: int16, n: int, quantity: int16) returns (t: Tally)
    requires IsPersonalSlot(i) && 0 <= n < 0x100
    ensures t == StackBag(b, item, i, 0, n, quantity)
  {
    var q := quantity;
    var k := 0;
    while k < n
      invariant 0 <= k <= n
      invariant StackBag(b, item, i, 0, n, quantity) == StackBag(b, item, i, k, n, q)
      decreases n - k
    {
      var e := FillOpenStack(b, item, BagSlot(i, k), q);
      StackBagStep(b, item, i, k, n, q, e);
      if e.Room? {
        return Room;
      }
      q := e.quantity;
      k := k + 1;
    }
    return Short(q);
  }

  /** The first pass at one slot: an open stack of the item takes what fits. */
  method FillOpenStack(b: Buckets, item: ItemDef, s: int16, q: int16) returns (e: Tally)
    ensures e == StackStep(b, item, s, q)
  {
    e := Short(q);
    if OpenStack(b, item, s) {
      var y := GetItem(b, s).value;
      var left := DefOf(y).stackSize - y.charges;
      e := if q <= left then Room else Short(ToInt16(q - left));
    }
  }

  /** One step of the first pass over a bag: room ends it, a shortfall carries to the next slot. */
  lemma StackBagStep(b: Buckets, item: ItemDef, i: int16, k: int, n: int, q: int16, e: Tally)
    requires IsPersonalSlot(i) && 0 <= k < n < 0x100 && e == StackStep(b, item, BagSlot(i, k), q)
    ensures e.Room? ==> StackBag(b, item, i, k, n, q) == Room
    ensures e.Short? ==> StackBag(b, item, i, k, n, q) == StackBag(b, item, i, k + 1, n, e.quantity)
  {
  }

  /** The second pass of `HasSpaceForItem`. */
  method FillEmptySlots(b: Buckets, item: ItemDef, quantity: int16) returns (t: Tally)
    ensures t == EmptySlots(b, item, 22, quantity)
  {
    t := FillEmptySlotsFrom(b, item, 22, quantity);
  }

  /** The second pass from personal slot `from` on. */
  method FillEmptySlotsFrom(b: Buckets, item: ItemDef, from: int16, quantity: int16) returns (t: Tally)
    requires 22 <= from <= 30
    ensures t == EmptySlots(b, item, from, quantity)
  {
    var q := quantity;
    var i: int16 := from;
    while i <= 29
      invariant from <= i <= 30
      invariant EmptySlots(b, item, from, quantity) == EmptySlots(b, item, i, q)
      decreases 30 - i
    {
      var e := FillEmptyEntry(b, item, i, q);
      EmptySlotsStep(b, item, i, q, e);
      if e.Room? {
        return Room;
      }
      q := e.quantity;
      i := i + 1;
    }
    return Short(q);
  }

  /** The second pass at one personal slot: the slot itself if empty, else the bag there if the item fits in it. */
  method FillEmptyEntry(b: Buckets, item: ItemDef, i: int16, q: int16) returns (e: Tally)
    requires IsPersonalSlot(i)
    ensures e == EmptyEntry(b, item, i, q)
  {
    var x := GetItem(b, i);
    e := Short(q);
    if x.None? {
      e := EmptyStep(item, q);
    } else if FittingBag(item, x) {
      e := FillEmptySlotsInBag(b, item, i, DefOf(x.value).bagSlots as int, q);
    }
  }

  method FillEmptySlotsInBag(b: Buckets, item: ItemDef, i: int16, n: int, quantity: int16) returns (t: Tally)
    requires IsPersonalSlot(i) && 0 <= n < 0x100
    ensures t == EmptyBag(b, item, i, 0, n, quantity)
  {
    var q := quantity;
    var k := 0;
    while k < n
      invariant 0 <= k <= n
      invariant EmptyBag(b, item, i, 0, n, quantity) == EmptyBag(b, item, i, k, n, q)
      decreases n - k
    {
      if GetItem(b, BagSlot(i, k)).None? {
        if EmptyStep(item, q).Room? {
          return Room;
        }
        q := EmptyStep(item, q).quantity;
      }
      k := k + 1;
    }
    return Short(q);
  }

  /** The number of slots the second pass finds empty, from personal slot `i` on. */
  function FreeSlots(b: Buckets, item: ItemDef, i: int16): nat
    requires 22 <= i <= 30
    decreases 30 - i
  {
    if i == 30 then 0
    else
      EntryFree(b, item, i) + FreeSlots(b, item, i + 1)
  }

  /** The empty slots the second pass finds at personal slot `i`: the slot itself, or those of a bag the item fits in. */
  function EntryFree(b: Buckets, item: ItemDef, i: int16): nat
    requires IsPersonalSlot(i)
  {
    var x := GetItem(b, i);
    if x.None? then 1 else if FittingBag(item, x) then FreeInBag(b, i, 0, DefOf(x.value).bagSlots as int) else 0
  }

  function FreeInBag(b: Buckets, i: int16, k: int, n: int): nat
    requires IsPersonalSlot(i) && 0 <= k <= n < 0x100
    decreases n - k
  {
    if k == n then 0
    else (if GetItem(b, BagSlot(i, k)).None? then 1 else 0) + FreeInBag(b, i, k + 1, n)
  }

  lemma {:induction false} EmptyBagCounts(b: Buckets, item: ItemDef, i: int16, k: int, n: int, q: int16)
    requires IsPersonalSlot(i) && 0 <= k <= n < 0x100
    requires !item.stackable && 1 <= q
    ensures EmptyBag(b, item, i, k, n, q) ==
      if FreeInBag(b, i, k, n) >= q as int then Room else Short((q as int - FreeInBag(b, i, k, n)) as int16)
    decreases n - k, 1
  {
    if k < n {
      if GetItem(b, BagSlot(i, k)).Some? {
        EmptyBagCountsTaken(b, item, i, k, n, q);
      } else {
        EmptyBagCountsFree(b, item, i, k, n, q);
      }
    }
  }

  /** `EmptyBagCounts` at a taken slot: it counts nothing and takes nothing. */
  lemma {:induction false} EmptyBagCountsTaken(b: Buckets, item: ItemDef, i: int16, k: int, n: int, q: int16)
    requires IsPersonalSlot(i) && 0 <= k < n < 0x100
    requires !item.stackable && 1 <= q && GetItem(b, BagSlot(i, k)).Some?
    ensures EmptyBag(b, item, i, k, n, q) ==
      if FreeInBag(b, i, k, n) >= q as int then Room else Short((q as int - FreeInBag(b, i, k, n)) as int16)
    decreases n - k, 0
  {
    assert FreeInBag(b, i, k, n) == FreeInBag(b, i, k + 1, n);
    assert EmptyBag(b, item, i, k, n, q) == EmptyBag(b, item, i, k + 1, n, q);
    EmptyBagCounts(b, item, i, k + 1, n, q);
  }

  /** `EmptyBagCounts` at an empty slot: it counts one and takes one. */
  lemma {:induction false} EmptyBagCountsFree(b: Buckets, item: ItemDef, i: int16, k: int, n: int, q: int16)
    requires IsPersonalSlot(i) && 0 <= k < n < 0x100
    requires !item.stackable && 1 <= q && GetItem(b, BagSlot(i, k)).None?
    ensures EmptyBag(b, item, i, k, n, q) ==
      if FreeInBag(b, i, k, n) >= q as int then Room else Short((q as int - FreeInBag(b, i, k, n)) as int16)
    decreases n - k, 0
  {
    assert FreeInBag(b, i, k, n) == FreeInBag(b, i, k + 1, n) + 1;
    EmptyStepUnstackable(item, q);
    if q > 1 {
      assert EmptyBag(b, item, i, k, n, q) == EmptyBag(b, item, i, k + 1, n, q - 1);
      EmptyBagCounts(b, item, i, k + 1, n, q - 1);
    }
  }

  /** For an item that does not stack each empty slot takes one. */
  lemma EmptyStepUnstackable(item: ItemDef, q: int16)
    requires !item.stackable && 1 <= q
    ensures EmptyStep(item, q) == if q == 1 then Room else Short(q - 1)
  {
  }

  lemma EmptyEntryCounts(b: Buckets, item: ItemDef, i: int16, q: int16)
    requires IsPersonalSlot(i)
    requires !item.stackable && 1 <= q
    ensures EmptyEntry(b, item, i, q) ==
      if EntryFree(b, item, i) >= q as int then Room else Short((q as int - EntryFree(b, item, i)) as int16)
  {
    var x := GetItem(b, i);
    if x.Some? && FittingBag(item, x) {
      EmptyBagCounts(b, item, i, 0, DefOf(x.value).bagSlots as int, q);
    }
  }

  lemma {:induction false} EmptySlotsCounts(b: Buckets, item: ItemDef, i: int16, q: int16)
    requires 22 <= i <= 30
    requires !item.stackable && 1 <= q
    ensures EmptySlots(b, item, i, q) ==
      if FreeSlots(b, item, i) >= q as int then Room else Short((q as int - FreeSlots(b, item, i)) as int16)
    decreases 30 - i
  {
    if i < 30 {
      EmptyEntryCounts(b, item, i, q);
      var f := EntryFree(b, item, i);
      if f < q as int {
        EmptySlotsCounts(b, item, i + 1, (q as int - f) as int16);
      }
    }
  }

  /**
   * An item that does not stack fits exactly when the personal slots and the
   * bags it may go in have at least `quantity` empty slots between them.
   */
  lemma HasSpaceCountsEmptySlots(b: Buckets, item: ItemDef, quantity: int16)
    requires !item.stackable && 1 <= quantity
    ensures HasSpace(b, item, quantity) <==> FreeSlots(b, item, 22) >= quantity as int
  {
    EmptySlotsCounts(b, item, 22, quantity);
  }

  /** A first-pass step never raises the quantity still to place. */
  lemma StackStepShrinks(b: Buckets, item: ItemDef, s: int16, q: int16)
    ensures StackStep(b, item, s, q).Short? ==> StackStep(b, item, s, q).quantity <= q
  {
  }

  /** The slot holds an open stack of the item with room for `q` more. */
  predicate StackTakes(b: Buckets, item: ItemDef, s: int16, q: int16)
  {
    OpenStack(b, item, s) && q <= DefOf(GetItem(b, s).value).stackSize - GetItem(b, s).value.charges
  }

  lemma {:induction false} StackBagFinds(b: Buckets, item: ItemDef, i: int16, k: int, n: int, q: int16, t: int)
    requires IsPersonalSlot(i) && 0 <= k <= t < n < 0x100
    requires StackTakes(b, item, BagSlot(i, t), q)
    ensures StackBag(b, item, i, k, n, q) == Room
    decreases n - k
  {
    StackStepShrinks(b, item, BagSlot(i, k), q);
    if k < t {
      match StackStep(b, item, BagSlot(i, k), q)
      case Room =>
      case Short(q') => StackBagFinds(b, item, i, k + 1, n, q', t);
    }
  }

  /** Personal slot `t` or a slot of the bag in it, as the first pass visits them. */
  predicate FirstPassVisits(b: Buckets, t: int16, s: int16)
    requires IsPersonalSlot(t)
  {
    s == t || (IsBag(GetItem(b, t)) && exists k | 0 <= k < DefOf(GetItem(b, t).value).bagSlots as int :: s == BagSlot(t, k))
  }

  lemma {:induction false} StackSlotsFinds(b: Buckets, item: ItemDef, i: int16, q: int16, t: int16, s: int16)
    requires 22 <= i <= t <= 29
    requires FirstPassVisits(b, t, s) && StackTakes(b, item, s, q)
    ensures StackSlots(b, item, i, q) == Room
    decreases 30 - i
  {
    StackStepShrinks(b, item, i, q);
    if i == t {
      if s != t {
        var k :| 0 <= k < DefOf(GetItem(b, t).value).bagSlots as int && s == BagSlot(t, k);
        match StackStep(b, item, i, q)
        case Room =>
        case Short(q') => StackBagFinds(b, item, i, 0, DefOf(GetItem(b, t).value).bagSlots as int, q', k);
      }
    } else {
      match StackEntry(b, item, i, q)
      case Room =>
      case Short(q') =>
        assert q' <= q by {
          match StackStep(b, item, i, q)
          case Room =>
          case Short(q1) =>
            if IsBag(GetItem(b, i)) {
              StackBagShrinks(b, item, i, 0, DefOf(GetItem(b, i).value).bagSlots as int, q1);
            }
        }
        StackSlotsFinds(b, item, i + 1, q', t, s);
    }
  }

  lemma {:induction false} StackBagShrinks(b: Buckets, item: ItemDef, i: int16, k: int, n: int, q: int16)
    requires IsPersonalSlot(i) && 0 <= k <= n < 0x100
    ensures StackBag(b, item, i, k, n, q).Short? ==> StackBag(b, item, i, k, n, q).quantity <= q
    decreases n - k
  {
    if k < n {
      StackStepShrinks(b, item, BagSlot(i, k), q);
      match StackStep(b, item, BagSlot(i, k), q)
      case Room =>
      case Short(q') => StackBagShrinks(b, item, i, k + 1, n, q');
    }
  }

  /**
   * A stackable item fits whenever one open stack of it, in a personal slot or
   * in a bag there, has room for the whole quantity.
   */
  lemma OneOpenStackSuffices(b: Buckets, item: ItemDef, quantity: int16, t: int16, s: int16)
    requires item.stackable && IsPersonalSlot(t)
    requires FirstPassVisits(b, t, s) && StackTakes(b, item, s, quantity)
    ensures HasSpace(b, item, quantity)
  {
    StackSlotsFinds(b, item, 22, quantity, t, s);
  }

  // ---------------------------------------------------------------------------
  // FindFreeSlot (Item.cpp:685-732).
  // ---------------------------------------------------------------------------

  /** The first empty personal slot from `i` on. */
  function FirstEmptySlot(b: Buckets, i: int16): Option<int16>
    requires 22 <= i <= 30
    decreases 30 - i
  {
    if i == 30 then None
    else if GetItem(b, i).None? then Some(i)
    else FirstEmptySlot(b, i + 1)
  }

  /** The first empty slot of the bag in personal slot `i`, from its `k`-th slot up to `n`. */
  function FirstEmptyInBag(b: Buckets, i: int16, k: int, n: int): Option<int16>
    requires IsPersonalSlot(i) && 0 <= k <= n < 0x100
    decreases n - k
  {
    if k == n then None
    else if GetItem(b, BagSlot(i, k)).None? then Some(BagSlot(i, k))
    else FirstEmptyInBag(b, i, k + 1, n)
  }

  /** A bag `FindFreeSlot` looks into: large enough, and not a quiver unless the quiver is itself an arrow. */
  predicate EligibleBag(x: Option<Inst>, minSize: uint8)
  {
    IsBag(x) && DefOf(x.value).bagSize >= minSize
    && !(DefOf(x.value).bagType == bagTypeQuiver && DefOf(x.value).itemType != ItemTypeArrow)
  }

  /** The first empty slot of the first eligible bag that has one, from personal slot `i` on. */
  function FirstEmptyBagSlot(b: Buckets, minSize: uint8, i: int16): Option<int16>
    requires 22 <= i <= 30
    decreases 30 - i
  {
    if i == 30 then None
    else
      var x := GetItem(b, i);
      if !EligibleBag(x, minSize) then FirstEmptyBagSlot(b, minSize, i + 1)
      else match FirstEmptyInBag(b, i, 0, DefOf(x.value).bagSlots as int)
        case Some(s) => Some(s)
        case None => FirstEmptyBagSlot(b, minSize, i + 1)
  }

  /** `FindFreeSlot`: an empty personal slot, else (unless for a bag) an empty bag slot, else the cursor if asked. */
  function FreeSlot(b: Buckets, forBag: bool, tryCursor: bool, minSize: uint8, isArrow: bool): int16
  {
    match FirstEmptySlot(b, 22)
    case Some(s) => s
    case None =>
      if !forBag && FirstEmptyBagSlot(b, minSize, 22).Some? then FirstEmptyBagSlot(b, minSize, 22).value
      else if tryCursor then SLOT_CURSOR
      else SLOT_INVALID
  }

  method FindFreeSlot(b: Buckets, forBag: bool, tryCursor: bool, minSize: uint8, isArrow: bool) returns (r: int16)
    ensures r == FreeSlot(b, forBag, tryCursor, minSize, isArrow)
  {
    var i: int16 := 22;
    while i <= 29
      invariant 22 <= i <= 30
      invariant FirstEmptySlot(b, 22) == FirstEmptySlot(b, i)
      decreases 30 - i
    {
      if GetItem(b, i).None? {
        return i;
      }
      i := i + 1;
    }
    if !forBag {
      var found := FindEmptyBagSlot(b, minSize);
      if found.Some? {
        return found.value;
      }
    }
    if tryCursor {
      return SLOT_CURSOR;
    }
    return SLOT_INVALID;
  }

  /** The bag loop of `FindFreeSlot`. */
  method FindEmptyBagSlot(b: Buckets, minSize: uint8) returns (r: Option<int16>)
    ensures r == FirstEmptyBagSlot(b, minSize, 22)
  {
    var i: int16 := 22;
    while i <= 29
      invariant 22 <= i <= 30
      invariant FirstEmptyBagSlot(b, minSize, 22) == FirstEmptyBagSlot(b, minSize, i)
      decreases 30 - i
    {
      var x := GetItem(b, i);
      if IsBag(x) && DefOf(x.value).bagSize >= minSize {
        if DefOf(x.value).bagType == bagTypeQuiver && DefOf(x.value).itemType != ItemTypeArrow {
          FirstEmptyBagSlotPasses(b, minSize, i);
          i := i + 1;
          continue;
        }
        var inBag := FindEmptyInBag(b, i, DefOf(x.value).bagSlots as int);
        if inBag.Some? {
          return inBag;
        }
      }
      FirstEmptyBagSlotPasses(b, minSize, i);
      i := i + 1;
    }
    return None;
  }

  /** One slot of the bag scan: an eligible bag's first empty index, or else the scan goes on to the next slot. */
  lemma FirstEmptyBagSlotPasses(b: Buckets, minSize: uint8, i: int16)
    requires IsPersonalSlot(i)
    ensures var x := GetItem(b, i);
      FirstEmptyBagSlot(b, minSize, i) ==
        if EligibleBag(x, minSize) && FirstEmptyInBag(b, i, 0, DefOf(x.value).bagSlots as int).Some?
        then FirstEmptyInBag(b, i, 0, DefOf(x.value).bagSlots as int)
        else FirstEmptyBagSlot(b, minSize, i + 1)
  {
  }

  /** The slot loop over one bag of `FindFreeSlot`. */
  method FindEmptyInBag(b: Buckets, i: int16, n: int) returns (r: Option<int16>)
    requires IsPersonalSlot(i) && 0 <= n < 0x100
    ensures r == FirstEmptyInBag(b, i, 0, n)
  {
    var k := 0;
    while k < n
      invariant 0 <= k <= n
      invariant FirstEmptyInBag(b, i, 0, n) == FirstEmptyInBag(b, i, k, n)
      decreases n - k
    {
      if GetItem(b, BagSlot(i, k)).None? {
        return Some(BagSlot(i, k));
      }
      k := k + 1;
    }
    return None;
  }

  lemma {:induction false} FirstEmptySlotMeaning(b: Buckets, i: int16)
    requires 22 <= i <= 30
    ensures FirstEmptySlot(b, i).Some? ==>
      var s := FirstEmptySlot(b, i).value;
      i <= s <= 29 && GetItem(b, s).None? && forall t: int16 | i <= t < s :: GetItem(b, t).Some?
    ensures FirstEmptySlot(b, i).None? ==> forall t: int16 | i <= t <= 29 :: GetItem(b, t).Some?
    decreases 30 - i
  {
    if i < 30 {
      FirstEmptySlotMeaning(b, i + 1);
    }
  }

  /** Index `j` of the bag in personal slot `t` is empty and every index from `k` up to it is taken. */
  predicate FirstEmptyAt(b: Buckets, t: int16, k: int, j: int)
    requires IsPersonalSlot(t) && 0 <= k <= j < 0x100
  {
    GetItem(b, BagSlot(t, j)).None? && forall j' | k <= j' < j :: GetItem(b, BagSlot(t, j')).Some?
  }

  /** The bag in personal slot `t` is one `FindFreeSlot` looks into, and has an empty index below its slot count. */
  predicate BagHasRoom(b: Buckets, t: int16, minSize: uint8)
    requires IsPersonalSlot(t)
  {
    EligibleBag(GetItem(b, t), minSize)
    && exists j | 0 <= j < DefOf(GetItem(b, t).value).bagSlots as int :: GetItem(b, BagSlot(t, j)).None?
  }

  /** The bag scan answers the lowest empty index from `k` below `n`, with every index before it taken. */
  lemma FirstEmptyInBagMeaning(b: Buckets, i: int16, k: int, n: int)
    requires IsPersonalSlot(i) && 0 <= k <= n < 0x100
    ensures FirstEmptyInBag(b, i, k, n).Some? ==>
      exists j | k <= j < n :: FirstEmptyInBag(b, i, k, n).value == BagSlot(i, j) && FirstEmptyAt(b, i, k, j)
  {
    if FirstEmptyInBag(b, i, k, n).Some? {
      var j := FirstEmptyInBagAt(b, i, k, n);
    }
  }

  /** The index `FirstEmptyInBagMeaning` speaks of. */
  lemma {:induction false} FirstEmptyInBagAt(b: Buckets, i: int16, k: int, n: int) returns (j: int)
    requires IsPersonalSlot(i) && 0 <= k <= n < 0x100 && FirstEmptyInBag(b, i, k, n).Some?
    ensures k <= j < n && FirstEmptyInBag(b, i, k, n).value == BagSlot(i, j) && FirstEmptyAt(b, i, k, j)
    decreases n - k
  {
    if GetItem(b, BagSlot(i, k)).None? {
      j := k;
      assert FirstEmptyAt(b, i, k, k);
    } else {
      j := FirstEmptyInBagAt(b, i, k + 1, n);
      FirstEmptyAtExtend(b, i, k, j);
    }
  }

  /** A first empty index from `k + 1` on is the first from `k` on when index `k` is taken. */
  lemma FirstEmptyAtExtend(b: Buckets, i: int16, k: int, j: int)
    requires IsPersonalSlot(i) && 0 <= k < j < 0x100
    requires FirstEmptyAt(b, i, k + 1, j) && GetItem(b, BagSlot(i, k)).Some?
    ensures FirstEmptyAt(b, i, k, j)
  {
    forall j' | k <= j' < j
      ensures GetItem(b, BagSlot(i, j')).Some?
    {
      if j' > k {
        assert k + 1 <= j' < j;
      }
    }
  }

  /** The bag scan answers nothing exactly when every index from `k` below `n` is taken. */
  lemma {:induction false} FirstEmptyInBagNone(b: Buckets, i: int16, k: int, n: int)
    requires IsPersonalSlot(i) && 0 <= k <= n < 0x100
    ensures FirstEmptyInBag(b, i, k, n).None? <==> forall j | k <= j < n :: GetItem(b, BagSlot(i, j)).Some?
    decreases n - k
  {
    if k < n {
      FirstEmptyInBagNone(b, i, k + 1, n);
    }
  }

  /** Personal slot `t` from `i` on holds the first bag with room. */
  predicate FirstRoomAt(b: Buckets, minSize: uint8, i: int16, t: int16)
    requires 22 <= i
  {
    i <= t <= 29 && BagHasRoom(b, t, minSize) && forall t': int16 | i <= t' < t :: !BagHasRoom(b, t', minSize)
  }

  /**
   * The scan over personal slots `i..29` answers the first empty index of the
   * first bag there with room; every eligible bag before it is full.
   */
  lemma FirstEmptyBagSlotMeaning(b: Buckets, minSize: uint8, i: int16)
    requires 22 <= i <= 30
    ensures FirstEmptyBagSlot(b, minSize, i).Some? ==>
      exists t: int16 | FirstRoomAt(b, minSize, i, t) ::
        exists j | 0 <= j < DefOf(GetItem(b, t).value).bagSlots as int ::
          FirstEmptyBagSlot(b, minSize, i).value == BagSlot(t, j) && FirstEmptyAt(b, t, 0, j)
  {
    if FirstEmptyBagSlot(b, minSize, i).Some? {
      var t, j := FirstBagSlotAt(b, minSize, i);
    }
  }

  /** The bag and the index `FirstEmptyBagSlotMeaning` speaks of. */
  lemma {:induction false} FirstBagSlotAt(b: Buckets, minSize: uint8, i: int16) returns (t: int16, j: int)
    requires 22 <= i <= 30 && FirstEmptyBagSlot(b, minSize, i).Some?
    ensures FirstRoomAt(b, minSize, i, t)
    ensures 0 <= j < DefOf(GetItem(b, t).value).bagSlots as int
    ensures FirstEmptyBagSlot(b, minSize, i).value == BagSlot(t, j) && FirstEmptyAt(b, t, 0, j)
    decreases 30 - i
  {
    if BagHasRoom(b, i, minSize) {
      t := i;
      j := FirstBagHere(b, minSize, i);
      assert FirstRoomAt(b, minSize, i, i);
    } else {
      FirstBagStep(b, minSize, i);
      t, j := FirstBagSlotAt(b, minSize, i + 1);
      FirstRoomAtExtend(b, minSize, i, t);
    }
  }

  /** A first bag with room from `i + 1` on is the first from `i` on when slot `i` has none. */
  lemma FirstRoomAtExtend(b: Buckets, minSize: uint8, i: int16, t: int16)
    requires 22 <= i < 30 && FirstRoomAt(b, minSize, i + 1, t) && !BagHasRoom(b, i, minSize)
    ensures FirstRoomAt(b, minSize, i, t)
  {
    forall t': int16 | i <= t' < t
      ensures !BagHasRoom(b, t', minSize)
    {
      if t' > i {
        assert i + 1 <= t' < t;
      }
    }
  }

  /** A bag with room at personal slot `i` answers its first empty index. */
  lemma FirstBagHere(b: Buckets, minSize: uint8, i: int16) returns (j: int)
    requires 22 <= i <= 29 && BagHasRoom(b, i, minSize)
    ensures 0 <= j < DefOf(GetItem(b, i).value).bagSlots as int
    ensures FirstEmptyBagSlot(b, minSize, i) == Some(BagSlot(i, j)) && FirstEmptyAt(b, i, 0, j)
  {
    var n := DefOf(GetItem(b, i).value).bagSlots as int;
    FirstEmptyInBagNone(b, i, 0, n);
    j := FirstEmptyInBagAt(b, i, 0, n);
  }

  /** The scan over personal slots `i..29` answers nothing exactly when no bag there has room. */
  lemma {:induction false} FirstEmptyBagSlotNone(b: Buckets, minSize: uint8, i: int16)
    requires 22 <= i <= 30
    ensures FirstEmptyBagSlot(b, minSize, i).None? <==> forall t: int16 | i <= t <= 29 :: !BagHasRoom(b, t, minSize)
    decreases 30 - i
  {
    if i < 30 {
      FirstBagStep(b, minSize, i);
      FirstEmptyBagSlotNone(b, minSize, i + 1);
    }
  }

  /** One step of the bag scan: a bag with room answers its first empty index, any other passes to the next slot. */
  lemma {:induction false} FirstBagStep(b: Buckets, minSize: uint8, i: int16)
    requires 22 <= i <= 29
    ensures BagHasRoom(b, i, minSize) ==>
      exists j | 0 <= j < DefOf(GetItem(b, i).value).bagSlots as int ::
        FirstEmptyBagSlot(b, minSize, i) == Some(BagSlot(i, j)) && FirstEmptyAt(b, i, 0, j)
    ensures !BagHasRoom(b, i, minSize) ==> FirstEmptyBagSlot(b, minSize, i) == FirstEmptyBagSlot(b, minSize, i + 1)
  {
    var x := GetItem(b, i);
    if BagHasRoom(b, i, minSize) {
      var j := FirstBagHere(b, minSize, i);
    } else if EligibleBag(x, minSize) {
      var n := DefOf(x.value).bagSlots as int;
      FirstEmptyInBagNone(b, i, 0, n);
    }
  }

  /**
   * `FindFreeSlot` answers the lowest empty personal slot when there is one,
   * whatever the flags.  Otherwise, unless looking for room for a bag, it
   * answers the first empty index of the first eligible bag with room, when
   * some bag has room; else the cursor when asked, else `SLOT_INVALID`.  The
   * arrow flag is never read.
   */
  lemma {:induction false} FreeSlotMeaning(b: Buckets, forBag: bool, tryCursor: bool, minSize: uint8, isArrow: bool)
    ensures var r := FreeSlot(b, forBag, tryCursor, minSize, isArrow);
      (exists t: int16 | 22 <= t <= 29 :: GetItem(b, t).None?) ==>
        22 <= r <= 29 && GetItem(b, r).None? && forall t: int16 | 22 <= t < r :: GetItem(b, t).Some?
    ensures var r := FreeSlot(b, forBag, tryCursor, minSize, isArrow);
      (forall t: int16 | 22 <= t <= 29 :: GetItem(b, t).Some?) && !forBag
      && (exists t: int16 | 22 <= t <= 29 :: BagHasRoom(b, t, minSize)) ==>
        exists t: int16 | FirstRoomAt(b, minSize, 22, t) ::
          exists j | 0 <= j < DefOf(GetItem(b, t).value).bagSlots as int :: r == BagSlot(t, j) && FirstEmptyAt(b, t, 0, j)
    ensures var r := FreeSlot(b, forBag, tryCursor, minSize, isArrow);
      (forall t: int16 | 22 <= t <= 29 :: GetItem(b, t).Some?)
      && (forBag || forall t: int16 | 22 <= t <= 29 :: !BagHasRoom(b, t, minSize)) ==>
        r == if tryCursor then SLOT_CURSOR else SLOT_INVALID
    ensures FreeSlot(b, forBag, tryCursor, minSize, isArrow) == FreeSlot(b, forBag, tryCursor, minSize, !isArrow)
  {
    FirstEmptySlotMeaning(b, 22);
    FirstEmptyBagSlotMeaning(b, minSize, 22);
    FirstEmptyBagSlotNone(b, minSize, 22);
  }

  // ---------------------------------------------------------------------------
  // CheckNoDrop (Item.cpp:612-631).
  // ---------------------------------------------------------------------------

  /** The item's definition has a `NoDrop` field of 0. */
  predicate NoDropZero(x: Option<Inst>)
  {
    x.Some? && DefOf(x.value).noDrop == 0
  }

  /** The `i`-th slot of the bag in slot `s` holds an item with `NoDrop` 0. */
  predicate BagSlotNoDropZero(b: Buckets, s: int16, i: int)
    requires 0 <= i < 0x100
  {
    NoDropZero(GetItem(b, CalcSlotId(s, i as uint8)))
  }

  /**
   * `CheckNoDrop`: true when the item in the slot has `NoDrop` 0, or is of item
   * class 1 and one of the first ten slots of its bag holds such an item.
   */
  method CheckNoDrop(b: Buckets, s: int16) returns (r: bool)
    ensures r <==> (GetItem(b, s).Some? &&
      (NoDropZero(GetItem(b, s))
       || (DefOf(GetItem(b, s).value).itemClass == 1 && exists i | 0 <= i < 10 :: BagSlotNoDropZero(b, s, i))))
  {
    var x := GetItem(b, s);
    if x.None? {
      return false;
    }
    if DefOf(x.value).noDrop == 0 {
      return true;
    }
    if DefOf(x.value).itemClass == 1 {
      var i := 0;
      while i < 10
        invariant 0 <= i <= 10
        invariant forall j | 0 <= j < i :: !BagSlotNoDropZero(b, s, j)
      {
        if BagSlotNoDropZero(b, s, i) {
          return true;
        }
        i := i + 1;
      }
    }
    return false;
  }
}
