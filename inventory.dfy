/**
 * The `Inventory` class: five buckets that map slot ids to items, the cursor
 * queue and the client limits.  Each method that changes the inventory is an
 * if-chain over the slot id that updates the buckets and the queue in place,
 * and is proved to leave the state that the matching transition function of
 * `InventoryState` computes from the old state; the searches and the placement
 * queries run the scans of `InventorySearch` and `InventorySpace` on the
 * current contents.
 */
module Inventories {
  import opened Wrappers
  import opened Constants
  import opened ItemData
  import opened SlotCodec
  import I = Items
  import IS = InventoryState
  import ISearch = InventorySearch
  import ISpace = InventorySpace
  import ItemQueue
  import Limits

  type Inst = I.Inst

  class Inventory {
    /** `m_worn`, `m_inv`, `m_bank`, `m_shbank` and `m_trade`. */
    var worn: map<int16, Inst>
    var inv: map<int16, Inst>
    var bank: map<int16, Inst>
    var shbank: map<int16, Inst>
    var trade: map<int16, Inst>
    /** `m_cursor`. */
    const cursor: ItemQueue.ItemInstQueue<Inst>
    /** `m_limits`. */
    const limits: Limits.InventoryLimits

    /** The contents as a value. */
    function State(): IS.Buckets
      reads this, cursor
    {
      IS.Buckets(worn, inv, bank, shbank, trade, cursor.list)
    }

    /** Every bucket holds only ids of its own range, and the limits table has its full size. */
    ghost predicate Valid()
      reads this, cursor, limits
    {
      IS.WellFormed(State()) && limits.Valid()
    }

    /** A new inventory: every bucket and the cursor empty, no limits set. */
    constructor ()
      ensures Valid()
      ensures State() == IS.EmptyBuckets
      ensures !limits.IsLimitsSet()
      ensures fresh(cursor) && fresh(limits)
    {
      worn, inv, bank, shbank, trade := map[], map[], map[], map[], map[];
      cursor := new ItemQueue.ItemInstQueue<Inst>();
      limits := new Limits.InventoryLimits();
    }

    /** `CursorEmpty`: no item on the cursor. */
    predicate CursorEmpty()
      reads this, cursor
      ensures CursorEmpty() <==> IS.GetItem(State(), SLOT_CURSOR).None?
    {
      cursor.Size() == 0
    }

    /** `IsLimitsSet`: whether a server, mob or client limits table has been loaded. */
    function IsLimitsSet(): (r: bool)
      reads this, limits
      ensures r == limits.limitsSet
    {
      limits.IsLimitsSet()
    }

    /** `_GetItem`: the bucket's entry, or nothing for a slot the bucket does not hold. */
    static method BucketEntry(bucket: map<int16, Inst>, s: int16) returns (r: Option<Inst>)
      ensures r.Some? <==> s in bucket
      ensures r.Some? ==> r.value == bucket[s]
    {
      if s in bucket {
        r := Some(bucket[s]);
      } else {
        r := None;
      }
    }

    /** The cursor's front, or nothing from an empty cursor. */
    method CursorFront() returns (r: Option<Inst>)
      ensures r == IS.Front(cursor.list)
      ensures r.Some? <==> !CursorEmpty()
    {
      r := cursor.PeekFront();
    }

    /** The child that slot `s` names in `bag`, when `bag` is an item of the container class. */
    static method ChildOf(bag: Option<Inst>, s: int16) returns (r: Option<Inst>)
      ensures r == IS.BagChild(bag, s)
      ensures !IS.IsBag(bag) ==> r.None?
    {
      if bag.Some? && I.IsType(bag.value, ItemClassContainer) {
        r := I.GetItem(bag.value, CalcBagIdx(s) as int16);
      } else {
        r := None;
      }
    }

    /** `GetItem(slot_id)`: the item the slot holds. */
    method GetItem(s: int16) returns (r: Option<Inst>)
      ensures r == IS.GetItem(State(), s)
    {
      if s == SLOT_CURSOR {
        r := CursorFront();
      } else if IsTradeSlot(s) {
        r := BucketEntry(trade, s);
      } else if IsSharedBankSlot(s) {
        r := BucketEntry(shbank, s);
      } else if IsBankSlot(s) {
        r := BucketEntry(bank, s);
      } else if IsPersonalSlot(s) {
        r := BucketEntry(inv, s);
      } else if IsWornSlot(s) {
        r := BucketEntry(worn, s);
      } else if 3031 <= s <= 3110 {
        var bag := BucketEntry(trade, CalcParentSlotId(s));
        r := ChildOf(bag, s);
      } else if 2531 <= s <= 2550 {
        var bag := BucketEntry(shbank, CalcParentSlotId(s));
        r := ChildOf(bag, s);
      } else if 2031 <= s <= 2270 {
        var bag := BucketEntry(bank, CalcParentSlotId(s));
        r := ChildOf(bag, s);
      } else if 331 <= s <= 340 {
        var bag := CursorFront();
        r := ChildOf(bag, s);
      } else if 251 <= s <= 330 {
        var bag := BucketEntry(inv, CalcParentSlotId(s));
        r := ChildOf(bag, s);
      } else {
        r := None;
      }
    }

    /** `GetItem(slot_id, bagidx)`: the item at index `bagidx` of the bag in `s`. */
    method GetItemInBag(s: int16, bagidx: uint8) returns (r: Option<Inst>)
      ensures r == IS.GetItemInBag(State(), s, bagidx)
      ensures SupportsContainers(s) ==> r == IS.GetItem(State(), CalcSlotId(s, bagidx))
    {
      r := GetItem(CalcSlotId(s, bagidx));
    }

    /** Store `x` at the top-level slot `s` in its bucket, or erase the entry when `x` is nothing. */
    method SetTopLevel(s: int16, x: Option<Inst>)
      requires IsTopLevelSlot(s)
      modifies this
      ensures State() == IS.Assign(old(State()), s, x)
    {
      if IsWornSlot(s) {
        worn := if x.Some? then worn[s := x.value] else worn - {s};
      } else if IsPersonalSlot(s) {
        inv := if x.Some? then inv[s := x.value] else inv - {s};
      } else if IsBankSlot(s) {
        bank := if x.Some? then bank[s := x.value] else bank - {s};
      } else if IsSharedBankSlot(s) {
        shbank := if x.Some? then shbank[s := x.value] else shbank - {s};
      } else {
        trade := if x.Some? then trade[s := x.value] else trade - {s};
      }
    }

    /**
     * The bag in slot `p` after a change to its contents: the source changes the
     * bag through a pointer, so the new bag value replaces the old one where it
     * is held, in its top-level slot or at the cursor's front.
     */
    method UpdateBag(p: int16, bag: Inst)
      modifies this, cursor
      ensures State() == IS.SetParent(old(State()), p, bag)
    {
      if p == SLOT_CURSOR {
        if |cursor.list| > 0 {
          cursor.list := [bag] + cursor.list[1..];
        }
      } else if IsTopLevelSlot(p) {
        SetTopLevel(p, Some(bag));
      }
    }

    /** `PopItem`: take the item out of its slot; a bag slot needs a container in the parent slot. */
    method PopItem(s: int16) returns (p: Option<Inst>)
      requires Valid()
      modifies this, cursor
      ensures Valid()
      ensures (State(), p) == IS.PopItem(old(State()), s)
    {
      IS.PopKeepsWellFormed(State(), s);
      if s == SLOT_CURSOR {
        p := cursor.Pop();
      } else if IsTopLevelSlot(s) {
        p := GetItem(s);
        SetTopLevel(s, None);
      } else {
        var parent := CalcParentSlotId(s);
        var bag := GetItem(parent);
        if bag.Some? && I.IsType(bag.value, ItemClassContainer) {
          var r := I.PopItem(bag.value, CalcBagIdx(s) as int16);
          p := r.1;
          UpdateBag(parent, r.0);
        } else {
          p := None;
        }
      }
    }

    /**
     * `_PutItem`: store `x` whatever the slot holds.  Nothing pops the slot;
     * the cursor replaces its front; a bag slot needs a container in the parent
     * slot, and otherwise `x` is discarded and the result is `SLOT_INVALID`.
     */
    method PutRaw(s: int16, x: Option<Inst>) returns (result: int16)
      requires Valid()
      modifies this, cursor
      ensures Valid()
      ensures (State(), result) == IS.PutRaw(old(State()), s, x)
    {
      IS.PutRawKeepsWellFormed(State(), s, x);
      if x.None? {
        var _ := PopItem(s);
        return s;
      }
      result := SLOT_INVALID;
      if s == SLOT_CURSOR {
        var _ := cursor.Pop();
        cursor.PushFront(x.value);
        result := s;
      } else if IsTopLevelSlot(s) {
        SetTopLevel(s, x);
        result := s;
      } else {
        var parent := CalcParentSlotId(s);
        var bag := GetItem(parent);
        if bag.Some? && I.IsType(bag.value, ItemClassContainer) {
          UpdateBag(parent, I.PutItemRaw(bag.value, CalcBagIdx(s) as int16, x.value));
          result := s;
        }
      }
    }

    /**
     * `DeleteItem(slot_id, quantity)`: pop the item; with a quantity, take that
     * many charges off and put the item back unless it is used up.  True when
     * the item is gone.
     */
    method DeleteItem(s: int16, quantity: uint8) returns (gone: bool)
      requires Valid()
      modifies this, cursor
      ensures Valid()
      ensures (State(), gone) == IS.DeleteItem(old(State()), s, quantity)
    {
      var item := PopItem(s);
      if item.Some? && quantity > 0 {
        var x := IS.Discharged(item.value, quantity);
        if x.charges <= 0 {
          if I.IsStackable(x)
             || (!I.IsStackable(x) && (DefOrZero(I.GetItemDef(x)).maxCharges == 0 || I.IsExpendable(x)))
          {
            return true;
          }
        }
        var _ := PutRaw(s, Some(x));
        return false;
      }
      return true;
    }

    /** `PutItem`: clear the slot, then store a copy of `x` unless it has no definition. */
    method PutItem(s: int16, x: Inst) returns (result: int16)
      requires Valid()
      modifies this, cursor
      ensures Valid()
      ensures (State(), result) == IS.PutItem(old(State()), s, x)
    {
      var _ := DeleteItem(s, 0);
      if !I.IsPresent(x) {
        return s;
      }
      result := PutRaw(s, Some(I.Clone(x)));
    }

    /** `PushCursor`: a copy of `x` at the back of the cursor. */
    method PushCursor(x: Inst) returns (result: int16)
      requires Valid()
      modifies cursor
      ensures Valid()
      ensures (State(), result) == IS.PushCursor(old(State()), x)
    {
      IS.CursorChangeKeepsWellFormed(State(), cursor.list + [I.Clone(x)]);
      cursor.Push(I.Clone(x));
      result := SLOT_CURSOR;
    }

    /**
     * `SwapItem`: both items are checked against the same placeholder slot
     * structure, which the source leaves uninitialised and which is a parameter
     * here; then each is put raw into the other's slot.
     */
    method SwapItem(a: int16, c: int16, placeholder: SlotStruct) returns (ok: bool)
      requires Valid()
      modifies this, cursor
      ensures Valid()
      ensures (State(), ok) == IS.SwapItem(old(State()), a, c, placeholder)
    {
      var ia := GetItem(a);
      var ic := GetItem(c);
      if ia.Some? && !I.IsSlotAllowed(ia.value, placeholder) {
        return false;
      }
      if ic.Some? && !I.IsSlotAllowed(ic.value, placeholder) {
        return false;
      }
      var _ := PutRaw(a, ic);
      var _ := PutRaw(c, ia);
      return true;
    }

    /** `HasItem`: the slot of the first stack, in the selected buckets, that counts to `quantity` of `itemId`. */
    method HasItem(itemId: uint32, quantity: uint8, where: uint8) returns (slot: int16)
      ensures slot == ISearch.Search(State(), ISearch.ById(itemId, quantity), where)
    {
      slot := ISearch.SearchAll(State(), ISearch.ById(itemId, quantity), where);
    }

    /** `HasItemByUse`: as `HasItem`, for common items of item type `use`. */
    method HasItemByUse(use: uint8, quantity: uint8, where: uint8) returns (slot: int16)
      ensures slot == ISearch.Search(State(), ISearch.ByUse(use, quantity), where)
    {
      slot := ISearch.SearchAll(State(), ISearch.ByUse(use, quantity), where);
    }

    /** `HasItemByLoreGroup`: the slot of the first item, or augment, of the lore group. */
    method HasItemByLoreGroup(loreGroup: uint32, where: uint8) returns (slot: int16)
      ensures slot == ISearch.Search(State(), ISearch.ByLoreGroup(loreGroup), where)
    {
      slot := ISearch.SearchAll(State(), ISearch.ByLoreGroup(loreGroup), where);
    }

    /** `HasSpaceForItem`: whether `quantity` of `item` fits in the personal slots and their bags. */
    method HasSpaceForItem(item: ItemDef, quantity: int16) returns (r: bool)
      ensures r == ISpace.HasSpace(State(), item, quantity)
    {
      r := ISpace.HasSpaceForItem(State(), item, quantity);
    }

    /** `FindFreeSlot`: the first free personal slot, bag slot or the cursor, as the flags allow. */
    method FindFreeSlot(forBag: bool, tryCursor: bool, minSize: uint8, isArrow: bool) returns (r: int16)
      ensures r == ISpace.FreeSlot(State(), forBag, tryCursor, minSize, isArrow)
    {
      r := ISpace.FindFreeSlot(State(), forBag, tryCursor, minSize, isArrow);
    }

    /** `CheckNoDrop`: whether the item in `s`, or one in its first ten bag slots, is no-drop. */
    method CheckNoDrop(s: int16) returns (r: bool)
      ensures r <==> (IS.GetItem(State(), s).Some?
                      && (ISpace.NoDropZero(IS.GetItem(State(), s))
                          || (ISpace.DefOf(IS.GetItem(State(), s).value).itemClass == 1
                              && exists i | 0 <= i < 10 :: ISpace.BagSlotNoDropZero(State(), s, i))))
    {
      r := ISpace.CheckNoDrop(State(), s);
    }
  }
}
