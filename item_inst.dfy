/**
 * `ItemInst`: one instance of an item definition, with its charges, colour,
 * merchant data, serial number, custom data and the instances it holds (bag
 * contents or augments, keyed by a one-byte index).
 *
 * An instance is a value: a tree whose children are values too, so that the
 * deep copy `Clone` is a copy and destroying a child means dropping it.  The
 * mutators of the C++ class are functions from the old instance to the new one.
 * The evolving-item subclass `EvoItemInst` is the `Evo` form of the `evo` field.
 */
module Items {
  import opened Wrappers
  import opened Constants
  import opened ItemData
  import SlotCodec
  import CustomData
  import KeyOrder

  /** The extra state of an `EvoItemInst`; `Plain` for a base `ItemInst`. */
  datatype EvoState =
    | Plain
    | Evo(exp: uint32, evolveLvl: int8, activated: bool,
          scaledItem: Option<ItemDef>, evolveInfo: Option<EvolveInfo>)

  datatype Inst = Inst(
    item: Option<ItemDef>,
    useType: ItemUseType,
    charges: int16,
    color: uint32,
    instNoDrop: bool,
    merchantSlot: uint32,
    merchantCount: int32,
    price: uint32,
    serialNumber: int32,
    customData: CustomData.Dict,
    contents: map<uint8, Inst>,
    evo: EvoState)

  /** The virtual `GetItem()`: an evolving item shows its scaled definition when it has one. */
  function GetItemDef(i: Inst): Option<ItemDef>
  {
    if i.evo.Evo? && i.evo.scaledItem.Some? then i.evo.scaledItem else i.item
  }

  /** The definition is present and of the common class. */
  predicate IsCommon(i: Inst)
  {
    i.item.Some? && i.item.value.itemClass == ItemClassCommon
  }

  /** The definition is present and of the container class. */
  predicate IsContainerDef(i: Inst)
  {
    i.item.Some? && i.item.value.itemClass == ItemClassContainer
  }

  // ---------------------------------------------------------------------------
  // Construction and copying (Item.cpp:1563-1643, Item.h:379-388).
  // ---------------------------------------------------------------------------

  /**
   * `ItemInst(item, charges)` with the serial number it draws: normal use, no
   * price, no merchant slot, one merchant unit, and the definition's colour for
   * a common item.
   */
  function NewInst(item: Option<ItemDef>, charges: int16, serial: int32): (i: Inst)
    ensures i.item == item && i.charges == charges && i.serialNumber == serial
    ensures i.contents == map[] && i.evo == Plain && i.useType == ItemUseNormal
    ensures IsCommon(i) ==> i.color == item.value.color
    ensures !IsCommon(i) ==> i.color == 0
  {
    Inst(item, ItemUseNormal, charges,
      if item.Some? && item.value.itemClass == ItemClassCommon then item.value.color else 0,
      false, 0, 1, 0, serial, [], map[], Plain)
  }

  /**
   * `ItemInst(use_type)`: no definition, no charges, price or colour.  The
   * merchant count and serial number are left unset by the C++ constructor and
   * are parameters here.
   */
  function InstOfUseType(useType: ItemUseType, merchantCount: int32, serial: int32): (i: Inst)
    ensures i.item.None? && i.charges == 0 && i.price == 0 && i.color == 0
    ensures i.useType == useType && i.contents == map[]
  {
    Inst(None, useType, 0, 0, false, 0, merchantCount, 0, serial, [], map[], Plain)
  }

  /** A copy of the evolving state: the evolve information is not copied. */
  function CloneEvo(e: EvoState): EvoState
  {
    match e
    case Plain => Plain
    case Evo(exp, lvl, act, scaled, _) => Evo(exp, lvl, act, scaled, None)
  }

  /** `Clone` and the copy constructors: a deep copy that keeps the serial number. */
  function Clone(i: Inst): (r: Inst)
    ensures r.contents.Keys == i.contents.Keys
  {
    Inst(i.item, i.useType, i.charges, i.color, i.instNoDrop, i.merchantSlot,
      i.merchantCount, i.price, i.serialNumber, i.customData,
      map k | k in i.contents :: Clone(i.contents[k]),
      CloneEvo(i.evo))
  }

  /** A copy agrees with the original everywhere except the evolve information. */
  lemma CloneKeepsInstance(i: Inst)
    ensures Clone(i).(contents := i.contents, evo := i.evo) == i
    ensures Clone(i).serialNumber == i.serialNumber
    ensures GetItemDef(Clone(i)) == GetItemDef(i)
    ensures Clone(i).evo.Evo? <==> i.evo.Evo?
    ensures forall k | k in i.contents :: Clone(i).contents[k] == Clone(i.contents[k])
  {
  }

  /** Copying a copy changes nothing. */
  lemma {:induction false} CloneIdempotent(i: Inst)
    ensures Clone(Clone(i)) == Clone(i)
    decreases i
  {
    forall k | k in i.contents
      ensures Clone(Clone(i)).contents[k] == Clone(i).contents[k]
    {
      CloneIdempotent(i.contents[k]);
    }
    assert Clone(Clone(i)).contents == Clone(i).contents;
  }

  /** No node of the tree carries evolve information. */
  predicate NoEvolveInfo(i: Inst)
    decreases i
  {
    (i.evo.Plain? || i.evo.evolveInfo.None?)
    && forall k | k in i.contents :: NoEvolveInfo(i.contents[k])
  }

  /** Without evolve information the copy is the original tree itself. */
  lemma {:induction false} CloneIsCopy(i: Inst)
    requires NoEvolveInfo(i)
    ensures Clone(i) == i
    decreases i
  {
    forall k | k in i.contents
      ensures Clone(i).contents[k] == i.contents[k]
    {
      CloneIsCopy(i.contents[k]);
    }
    assert Clone(i).contents == i.contents;
  }

  // ---------------------------------------------------------------------------
  // Children (Item.cpp:1798-1810, 1951-2023, 2106-2110).
  // ---------------------------------------------------------------------------

  /** `sub_slot & MCONTENTS_OOR`: the index is out of range for the contents map. */
  predicate IsOOR(sub: int16)
  {
    AndNonZero(ToUint16(sub), MCONTENTS_OOR)
  }

  /** Narrowing an index to its low byte never sets an out-of-range bit. */
  lemma NarrowedOOR(sub: int16)
    ensures IsOOR(ToUint8(sub) as int16) ==> IsOOR(sub)
  {
    var w := ToUint16(sub);
    assert ToUint8(sub) == w % 0x100;
    assert ToUint16(ToUint8(sub) as int16) == ToUint8(sub);
    if IsOOR(ToUint8(sub) as int16) {
      LowByteAnd(w, MCONTENTS_OOR);
    }
  }

  /** `GetItem(sub_slot)`: the child at the index's low byte. */
  function GetItem(i: Inst, sub: int16): Option<Inst>
  {
    if IsOOR(sub) then None
    else if ToUint8(sub) in i.contents then Some(i.contents[ToUint8(sub)])
    else None
  }

  /** `_PutItem`: store a child at the index's low byte, replacing any child there. */
  function PutItemRaw(i: Inst, sub: int16, x: Inst): Inst
  {
    if IsOOR(sub) then i else i.(contents := i.contents[ToUint8(sub) := x])
  }

  /** `PopItem`: remove the child at the index and hand it over. */
  function PopItem(i: Inst, sub: int16): (Inst, Option<Inst>)
  {
    if IsOOR(sub) then (i, None)
    else if ToUint8(sub) in i.contents then
      (i.(contents := i.contents - {ToUint8(sub)}), Some(i.contents[ToUint8(sub)]))
    else (i, None)
  }

  /** `DeleteItem`: pop the child at the index narrowed to a byte, and drop it. */
  function DeleteItem(i: Inst, sub: int16): Inst
  {
    if IsOOR(sub) then i else PopItem(i, ToUint8(sub) as int16).0
  }

  /** `PutItem(sub_slot, inst)`: delete what is there, then store a copy of `x`. */
  function PutItem(i: Inst, sub: int16, x: Inst): Inst
  {
    if IsOOR(sub) then i else PutItemRaw(DeleteItem(i, sub), sub, Clone(x))
  }

  /** The id of the child's definition, 0 without a child. */
  function GetItemID(i: Inst, sub: int16): (r: uint32)
    ensures GetItem(i, sub).None? ==> r == 0
  {
    match GetItem(i, sub)
    case None => 0
    case Some(c) => DefOrZero(GetItemDef(c)).id
  }

  /** After `PutItem` the index holds a copy of `x`; only that index and only the contents change. */
  lemma PutItemThenGetItem(i: Inst, sub: int16, x: Inst, other: int16)
    requires !IsOOR(sub)
    ensures GetItem(PutItem(i, sub, x), sub) == Some(Clone(x))
    ensures ToUint8(other) != ToUint8(sub) ==> GetItem(PutItem(i, sub, x), other) == GetItem(i, other)
    ensures PutItem(i, sub, x).(contents := i.contents) == i
  {
  }

  /** `PopItem` hands over exactly the child `GetItem` sees and leaves the index empty. */
  lemma PopItemMeaning(i: Inst, sub: int16, other: int16)
    ensures PopItem(i, sub).1 == GetItem(i, sub)
    ensures GetItem(PopItem(i, sub).0, sub) == None
    ensures ToUint8(other) != ToUint8(sub) ==> GetItem(PopItem(i, sub).0, other) == GetItem(i, other)
    ensures PopItem(i, sub).0.(contents := i.contents) == i
  {
  }

  /** `DeleteItem` empties the index and touches nothing else. */
  lemma DeleteItemMeaning(i: Inst, sub: int16, other: int16)
    ensures GetItem(DeleteItem(i, sub), sub) == None
    ensures ToUint8(other) != ToUint8(sub) ==> GetItem(DeleteItem(i, sub), other) == GetItem(i, other)
    ensures DeleteItem(i, sub).(contents := i.contents) == i
  {
    NarrowedOOR(sub);
    assert ToUint8(ToUint8(sub) as int16) == ToUint8(sub);
  }

  /** An out-of-range index finds nothing and changes nothing. */
  lemma OutOfRangeIsNoOp(i: Inst, sub: int16, x: Inst)
    requires IsOOR(sub)
    ensures GetItem(i, sub) == None && GetItemID(i, sub) == 0
    ensures PutItemRaw(i, sub, x) == i && PutItem(i, sub, x) == i
    ensures PopItem(i, sub) == (i, None) && DeleteItem(i, sub) == i
  {
  }

  /** `Clear`: every child is dropped; nothing else about the instance changes. */
  function Clear(i: Inst): (r: Inst)
    ensures forall sub: int16 :: GetItem(r, sub).None?
    ensures r.(contents := i.contents) == i
  {
    i.(contents := map[])
  }

  // ---------------------------------------------------------------------------
  // Augments (Item.cpp:2046-2103): the child operations, for common items only.
  // ---------------------------------------------------------------------------

  function GetAugmentItemID(i: Inst, s: int16): uint32
  {
    if IsOOR(s) then 0 else if IsCommon(i) then GetItemID(i, s) else 0
  }

  function GetAugment(i: Inst, s: int16): Option<Inst>
  {
    if IsOOR(s) then None else if IsCommon(i) then GetItem(i, s) else None
  }

  function PutAugment(i: Inst, s: int16, x: Inst): Inst
  {
    if IsOOR(s) then i else if IsCommon(i) then PutItem(i, s, x) else i
  }

  function RemoveAugment(i: Inst, s: int16): (Inst, Option<Inst>)
  {
    if IsOOR(s) then (i, None) else if IsCommon(i) then PopItem(i, s) else (i, None)
  }

  function DeleteAugment(i: Inst, s: int16): Inst
  {
    if IsOOR(s) then i else if IsCommon(i) then DeleteItem(i, s) else i
  }

  /** On a common item the augment operations are the child operations; on any other they do nothing. */
  lemma AugmentsNeedCommon(i: Inst, s: int16, x: Inst)
    ensures IsCommon(i) ==>
      GetAugment(i, s) == GetItem(i, s) && PutAugment(i, s, x) == PutItem(i, s, x)
      && RemoveAugment(i, s) == PopItem(i, s) && DeleteAugment(i, s) == DeleteItem(i, s)
      && GetAugmentItemID(i, s) == GetItemID(i, s)
    ensures !IsCommon(i) ==>
      GetAugment(i, s) == None && PutAugment(i, s, x) == i
      && RemoveAugment(i, s) == (i, None) && DeleteAugment(i, s) == i && GetAugmentItemID(i, s) == 0
  {
  }

  /**
   * `PutItem(db, sub_slot, item_id)`: the instance the database creates for
   * `item_id` is the parameter `created`.  The call goes through `PutAugment`.
   */
  function PutItemFromDb(i: Inst, sub: int16, itemId: uint32, created: Option<Inst>): Inst
  {
    if IsOOR(sub) then i
    else if itemId != 0 && sub < DefOrZero(i.item).bagSlots && created.Some? then PutAugment(i, sub, created.value)
    else i
  }

  /** `PutAugment(db, aug_slot, item_id)`, with the created instance as a parameter. */
  function PutAugmentFromDb(i: Inst, s: int16, itemId: uint32, created: Option<Inst>): Inst
  {
    if IsOOR(s) then i
    else if itemId != 0 && created.Some? then PutAugment(i, s, created.value)
    else i
  }

  /** Filling a bag from the database never stores anything: the bag is not a common item. */
  lemma PutItemFromDbNeverFillsBags(i: Inst, sub: int16, itemId: uint32, created: Option<Inst>)
    requires IsContainerDef(i)
    ensures PutItemFromDb(i, sub, itemId, created) == i
  {
  }

  /** On a common item the database put of a child is the augment put, limited by the bag-slot count. */
  lemma PutItemFromDbIsAugmentPut(i: Inst, sub: int16, itemId: uint32, x: Inst)
    requires IsCommon(i) && !IsOOR(sub) && itemId != 0
    ensures sub < i.item.value.bagSlots ==> PutItemFromDb(i, sub, itemId, Some(x)) == PutItem(i, sub, x)
    ensures sub >= i.item.value.bagSlots ==> PutItemFromDb(i, sub, itemId, Some(x)) == i
    ensures PutAugmentFromDb(i, sub, itemId, Some(x)) == PutItem(i, sub, x)
  {
  }

  // ---------------------------------------------------------------------------
  // Definition predicates (Item.cpp:1645-1700, Item.h:426-446, 510-512)
  // ---------------------------------------------------------------------------

  /** `IsType`: a world container counts as a container whatever its definition. */
  predicate IsType(i: Inst, itemClass: uint8)
  {
    (i.useType == ItemUseWorldContainer && itemClass == ItemClassContainer)
    || (i.item.Some? && i.item.value.itemClass == itemClass)
  }

  predicate IsStackable(i: Inst)
  {
    i.item.Some? && i.item.value.stackable
  }

  /** `IsEquipable(InventorySlot_Struct)`: a possessions main slot in the equipment range whose bit the item allows. */
  predicate IsEquipableAt(i: Inst, s: SlotStruct)
  {
    i.item.Some?
    && s.slottype == SlotType_Possessions
    && s.subslot == SUBSLOT_INVALID && s.augslot == AUGSLOT_INVALID
    && EQUIPMENT_START <= s.mainslot <= EQUIPMENT_END
    && Bit(i.item.value.slots, s.mainslot)
  }

  predicate IsWeapon(i: Inst)
  {
    IsCommon(i)
    && (if i.item.value.itemType == ItemTypeArrow && i.item.value.damage != 0 then true
        else i.item.value.damage != 0 && i.item.value.delay != 0)
  }

  predicate IsAmmo(i: Inst)
  {
    i.item.Some?
    && (i.item.value.itemType == ItemTypeArrow || i.item.value.itemType == ItemTypeThrowing
        || i.item.value.itemType == ItemTypeThrowingv2)
  }

  predicate IsExpendable(i: Inst)
  {
    i.item.Some? && (i.item.value.clickType == ET_Expendable || i.item.value.itemType == ItemTypePotion)
  }

  function GetID(i: Inst): uint32
  {
    if i.item.Some? then i.item.value.id else 0
  }

  function GetItemScriptID(i: Inst): uint32
  {
    if i.item.Some? then i.item.value.scriptFileID else 0
  }

  function GetAugmentType(i: Inst): int32
  {
    if i.item.Some? then i.item.value.augType else 0
  }

  /** `operator bool`. */
  predicate IsPresent(i: Inst)
  {
    i.item.Some?
  }

  /** `operator==`: same definition, and false for an instance without one. */
  predicate Equals(a: Inst, b: Inst)
  {
    a.item.Some? && a.item == b.item
  }

  /** `operator!=`: different definition, and false for an instance without one. */
  predicate NotEquals(a: Inst, b: Inst)
  {
    a.item.Some? && a.item != b.item
  }

  /** With a definition exactly one of `==` and `!=` holds; without one neither does. */
  lemma OperatorsPartition(a: Inst, b: Inst)
    ensures IsPresent(a) ==> (Equals(a, b) <==> !NotEquals(a, b))
    ensures !IsPresent(a) ==> !Equals(a, b) && !NotEquals(a, b)
    ensures IsPresent(a) && !IsPresent(b) ==> NotEquals(a, b) && !NotEquals(b, a)
  {
  }

  /** An instance without a definition answers every definition query with false or 0. */
  lemma NoDefinitionDefaults(i: Inst, s: SlotStruct)
    requires i.item.None?
    ensures !IsPresent(i) && !IsStackable(i) && !IsWeapon(i) && !IsAmmo(i) && !IsExpendable(i)
    ensures !IsEquipableAt(i, s) && !IsSlotAllowed(i, s)
    ensures GetID(i) == 0 && GetItemScriptID(i) == 0 && GetAugmentType(i) == 0
    ensures IsType(i, ItemClassContainer) <==> i.useType == ItemUseWorldContainer
    ensures !IsType(i, ItemClassCommon) && !IsType(i, ItemClassBook)
  {
  }

  /** An arrow with damage is a weapon without a delay; any other weapon needs both. */
  lemma WeaponRule(i: Inst)
    requires IsCommon(i)
    ensures IsWeapon(i) ==> i.item.value.damage != 0
    ensures i.item.value.itemType == ItemTypeArrow && i.item.value.damage != 0 ==> IsWeapon(i)
    ensures i.item.value.itemType != ItemTypeArrow ==> (IsWeapon(i) <==> i.item.value.damage != 0 && i.item.value.delay != 0)
  {
  }

  /** `IsSlotAllowed` (Item.cpp:1715-1742). */
  predicate IsSlotAllowed(i: Inst, s: SlotStruct)
  {
    if i.item.None? then false
    else if SlotCodec.SupportsContainers(0) then true
    else if IsEquipableAt(i, s) then true
    else if s.augslot == AUGSLOT_INVALID then
      if s.slottype == SlotType_Possessions then
        PERSONAL_START <= s.mainslot < ServerInventoryLimits[SlotType_Possessions]
        && SUBSLOT_INVALID <= s.subslot < i.item.value.bagSlots
      else if SlotType_Possessions < s.slottype < SlotType_Count then
        MAINSLOT_START <= s.mainslot < ServerInventoryLimits[s.slottype]
        && SUBSLOT_INVALID <= s.subslot < i.item.value.bagSlots
      else false
    else false
  }

  /**
   * The container shortcut in `IsSlotAllowed` never fires; an equipable slot is
   * allowed, and an augment address is allowed only if equipable, which it never is.
   */
  lemma IsSlotAllowedMeaning(i: Inst, s: SlotStruct)
    ensures !SlotCodec.SupportsContainers(0)
    ensures IsEquipableAt(i, s) ==> IsSlotAllowed(i, s)
    ensures s.augslot != AUGSLOT_INVALID ==> !IsSlotAllowed(i, s)
    ensures (i.item.Some? && s.augslot == AUGSLOT_INVALID && s.slottype == SlotType_Possessions
             && PERSONAL_START <= s.mainslot < ServerInventoryLimits[0]
             && SUBSLOT_INVALID <= s.subslot < i.item.value.bagSlots) ==> IsSlotAllowed(i, s)
  {
  }

  // ---------------------------------------------------------------------------
  // Scans over the definition and the children (Item.cpp:1702-1810, 1941-1949, 2026-2044)
  // ---------------------------------------------------------------------------

  /** `IsAugmentable`: some augment slot of the definition has a type. */
  method IsAugmentable(i: Inst) returns (b: bool)
    ensures b <==> i.item.Some? && exists k | AUGSLOT_START <= k < MAX_AUGMENTS :: i.item.value.augSlotType[k] != 0
  {
    if i.item.None? {
      return false;
    }
    var d := i.item.value;
    var k := AUGSLOT_START;
    while k < MAX_AUGMENTS
      invariant AUGSLOT_START <= k
      invariant k <= MAX_AUGMENTS || k == AUGSLOT_START
      invariant forall j | AUGSLOT_START <= j < k :: d.augSlotType[j] == 0
    {
      if d.augSlotType[k] != 0 {
        return true;
      }
      k := k + 1;
    }
    return false;
  }

  /** A child occupies index `s`. */
  predicate Occupied(i: Inst, s: int16)
  {
    GetItem(i, s).Some?
  }

  /** Sub-slot indices `[lo, hi)` of a scan; all of them are `int16` values. */
  predicate ScanRange(lo: int, hi: int)
  {
    -0x8000 <= lo && hi <= 0x8000
  }

  /** `IsNoneEmptyContainer`: a container with a child at some index below its bag-slot count. */
  method IsNoneEmptyContainer(i: Inst) returns (b: bool)
    ensures b <==> (IsContainerDef(i)
      && exists s: int16 | SUBSLOT_START <= s < i.item.value.bagSlots :: Occupied(i, s))
  {
    if !IsContainerDef(i) {
      return false;
    }
    var s: int := SUBSLOT_START;
    while s < i.item.value.bagSlots
      invariant SUBSLOT_START <= s || s == SUBSLOT_START
      invariant s <= i.item.value.bagSlots || s == SUBSLOT_START
      invariant forall t: int16 | SUBSLOT_START <= t < s :: !Occupied(i, t)
    {
      if GetItem(i, s as int16).Some? {
        assert Occupied(i, s as int16);
        return true;
      }
      s := s + 1;
    }
    return false;
  }

  /** `AvailableWearSlot`: a common item and the augment share an equipment slot. */
  method AvailableWearSlot(i: Inst, augWearSlots: uint32) returns (b: bool)
    ensures b <==> (IsCommon(i)
      && exists w | EQUIPMENT_START <= w <= EQUIPMENT_END :: Bit(i.item.value.slots, w) && Bit(augWearSlots, w))
  {
    if !IsCommon(i) {
      return false;
    }
    var slots := i.item.value.slots;
    var w: int := EQUIPMENT_START;
    while w <= EQUIPMENT_END && !(Bit(slots, w) && Bit(augWearSlots, w))
      invariant EQUIPMENT_START <= w <= EQUIPMENT_END + 1 || w == EQUIPMENT_START
      invariant forall v | EQUIPMENT_START <= v < w :: !(Bit(slots, v) && Bit(augWearSlots, v))
    {
      w := w + 1;
    }
    if w <= EQUIPMENT_END {
      assert EQUIPMENT_START <= w && Bit(slots, w) && Bit(augWearSlots, w);
      assert exists v | EQUIPMENT_START <= v <= EQUIPMENT_END :: Bit(i.item.value.slots, v) && Bit(augWearSlots, v);
    } else {
      assert forall v | EQUIPMENT_START <= v <= EQUIPMENT_END :: !(Bit(slots, v) && Bit(augWearSlots, v));
    }
    b := w <= EQUIPMENT_END;
  }

  /** `IsAugmented`: a common item with an augment whose definition id is non-zero. */
  method IsAugmented(i: Inst) returns (b: bool)
    ensures b <==> (IsCommon(i)
      && exists s: int16 | AUGSLOT_START <= s < MAX_AUGMENTS :: GetAugmentItemID(i, s) != 0)
  {
    if !IsCommon(i) {
      return false;
    }
    var s: int := AUGSLOT_START;
    while s < MAX_AUGMENTS
      invariant AUGSLOT_START <= s
      invariant forall t: int16 | AUGSLOT_START <= t < s :: GetAugmentItemID(i, t) == 0
    {
      if GetAugmentItemID(i, s as int16) != 0 {
        return true;
      }
      s := s + 1;
    }
    return false;
  }

  /** The number of occupied indices in `[lo, hi)`. */
  function OccupiedCount(i: Inst, lo: int, hi: int): (n: nat)
    requires ScanRange(lo, hi)
    ensures n <= if lo < hi then hi - lo else 0
    decreases hi - lo
  {
    if lo >= hi then 0
    else OccupiedCount(i, lo, hi - 1) + (if Occupied(i, (hi - 1) as int16) then 1 else 0)
  }

  /** No index counts exactly when every index in the range is empty. */
  lemma {:induction false} OccupiedCountZero(i: Inst, lo: int, hi: int)
    requires ScanRange(lo, hi)
    ensures OccupiedCount(i, lo, hi) == 0 <==> forall s: int16 | lo <= s < hi :: !Occupied(i, s)
    decreases hi - lo
  {
    if lo < hi {
      OccupiedCountZero(i, lo, hi - 1);
    }
  }

  /** `GetTotalItemCount`: the item itself and, for a container, each occupied sub-slot; a `uint8` count. */
  method GetTotalItemCount(i: Inst) returns (n: uint8)
    ensures !IsContainerDef(i) ==> n == 1
    ensures IsContainerDef(i) ==> n == ToUint8(1 + OccupiedCount(i, SUBSLOT_START, i.item.value.bagSlots))
  {
    n := 1;
    if !IsContainerDef(i) {
      return;
    }
    var s: int := SUBSLOT_START;
    if s >= i.item.value.bagSlots {
      return;
    }
    while s < i.item.value.bagSlots
      invariant SUBSLOT_START <= s <= i.item.value.bagSlots
      invariant n == ToUint8(1 + OccupiedCount(i, SUBSLOT_START, s))
    {
      ToUint8Succ(1 + OccupiedCount(i, SUBSLOT_START, s));
      if GetItem(i, s as int16).Some? {
        n := ToUint8(n + 1);
      }
      s := s + 1;
    }
  }

  /** A container with nothing in its bag slots counts as one item, and as more than one otherwise (below 255 children). */
  lemma TotalCountAgreesWithEmptiness(i: Inst)
    requires IsContainerDef(i)
    requires OccupiedCount(i, SUBSLOT_START, i.item.value.bagSlots) < 0xFF
    ensures ToUint8(1 + OccupiedCount(i, SUBSLOT_START, i.item.value.bagSlots)) == 1
      <==> forall s: int16 | SUBSLOT_START <= s < i.item.value.bagSlots :: !Occupied(i, s)
  {
    OccupiedCountZero(i, SUBSLOT_START, i.item.value.bagSlots);
  }

  /** `r` is the least index of `[lo, hi)` with no child. */
  predicate IsLeastOpen(i: Inst, lo: int, hi: int, r: int16)
  {
    lo <= r < hi && !Occupied(i, r) && forall s: int16 | lo <= s < r :: Occupied(i, s)
  }

  /**
   * `FirstOpenSlot`: the least empty sub-slot below the bag-slot count, or
   * `SUBSLOT_INVALID`.  The C++ code reads the definition unchecked.
   */
  method FirstOpenSlot(i: Inst) returns (r: int16)
    ensures var hi := DefOrZero(i.item).bagSlots;
      IsLeastOpen(i, SUBSLOT_START, hi, r)
      || (r == SUBSLOT_INVALID && forall s: int16 | SUBSLOT_START <= s < hi :: Occupied(i, s))
  {
    var hi := DefOrZero(i.item).bagSlots;
    var s: int := SUBSLOT_START;
    while s < hi
      invariant SUBSLOT_START <= s
      invariant s <= hi || s == SUBSLOT_START
      invariant forall t: int16 | SUBSLOT_START <= t < s :: Occupied(i, t)
    {
      if GetItem(i, s as int16).None? {
        break;
      }
      s := s + 1;
    }
    r := if s < hi then s as int16 else SUBSLOT_INVALID;
  }

  /** Bit `t - 1` of the augment type, for an augment-slot type `t` whose shift is defined. */
  predicate AugBit(t: uint8, augType: int32)
  {
    1 <= t <= 32 && Bit(ToUint32(augType), t - 1)
  }

  /** An empty augment slot whose type the augment type admits; -1 admits every slot. */
  predicate AugmentFits(i: Inst, s: int16, augType: int32)
    requires i.item.Some? && 0 <= s < MAX_AUGMENTS
  {
    !Occupied(i, s)
    && (augType == -1 || (i.item.value.augSlotType[s] != 0 && AugBit(i.item.value.augSlotType[s], augType)))
  }

  /** `AvailableAugmentSlot`: the least empty augment slot that fits, or `AUGSLOT_INVALID`. */
  method AvailableAugmentSlot(i: Inst, augType: int32) returns (r: int16)
    ensures !IsCommon(i) ==> r == AUGSLOT_INVALID
    ensures IsCommon(i) ==>
      (AUGSLOT_START <= r < MAX_AUGMENTS && AugmentFits(i, r, augType)
        && forall s: int16 | AUGSLOT_START <= s < r :: !AugmentFits(i, s, augType))
      || (r == AUGSLOT_INVALID && forall s: int16 | AUGSLOT_START <= s < MAX_AUGMENTS :: !AugmentFits(i, s, augType))
  {
    if !IsCommon(i) {
      return AUGSLOT_INVALID;
    }
    var s: int := AUGSLOT_START;
    while s < MAX_AUGMENTS
      invariant AUGSLOT_START <= s
      invariant s <= MAX_AUGMENTS || s == AUGSLOT_START
      invariant forall t: int16 | AUGSLOT_START <= t < s :: !AugmentFits(i, t, augType)
    {
      if AugmentFits(i, s as int16, augType) {
        break;
      }
      s := s + 1;
    }
    r := if s < MAX_AUGMENTS then s as int16 else AUGSLOT_INVALID;
  }

  /** `IsEquipable(race_id, class_id)`: a definition with some wear slot that the race and class may use. */
  method IsEquipable(i: Inst, raceId: uint16, classId: uint16, arrayRace: uint32) returns (b: bool)
    ensures b <==> (i.item.Some? && i.item.value.slots != 0
      && ClassAllowed(i.item.value.classes, classId) && RaceAllowed(i.item.value.races, RemapRace(arrayRace)))
  {
    if i.item.None? || i.item.value.slots == 0 {
      return false;
    }
    b := IsEquipableBy(i.item.value, raceId, classId, arrayRace);
  }

  // ---------------------------------------------------------------------------
  // ClearByFlags (Item.cpp:1812-1872)
  // ---------------------------------------------------------------------------

  /**
   * Whether a filter case removes a child with flag value `v`.  `byFlagSet`
   * falls through into `byFlagNotSet`, so it removes the child whatever `v` is.
   */
  predicate Fires(f: FlagSetting, v: uint8)
  {
    match f
    case byFlagIgnore => false
    case byFlagSet => true
    case byFlagNotSet => v != 0
  }

  /** A child with a definition that the no-drop or the no-rent filter removes. */
  predicate Removed(x: Inst, noDrop: FlagSetting, noRent: FlagSetting)
  {
    GetItemDef(x).Some?
    && (Fires(noDrop, GetItemDef(x).value.noDrop) || Fires(noRent, GetItemDef(x).value.noRent))
  }

  /** The children that survive the filters. */
  function Kept(c: map<uint8, Inst>, noDrop: FlagSetting, noRent: FlagSetting): map<uint8, Inst>
  {
    map k | k in c && !Removed(c[k], noDrop, noRent) :: c[k]
  }

  /** The children that survive the filters once the keys `ks` have been visited. */
  function KeptAmong(c: map<uint8, Inst>, ks: seq<int>, noDrop: FlagSetting, noRent: FlagSetting): map<uint8, Inst>
  {
    map k | k in c && !(k in ks && Removed(c[k], noDrop, noRent)) :: c[k]
  }

  lemma KeptAmongStep(c: map<uint8, Inst>, ks: seq<int>, k: uint8, noDrop: FlagSetting, noRent: FlagSetting)
    requires k in c
    ensures Removed(c[k], noDrop, noRent) ==>
      KeptAmong(c, ks + [k], noDrop, noRent) == KeptAmong(c, ks, noDrop, noRent) - {k}
    ensures !Removed(c[k], noDrop, noRent) ==>
      KeptAmong(c, ks + [k], noDrop, noRent) == KeptAmong(c, ks, noDrop, noRent)
  {
    assert forall j :: j in ks + [k] <==> j in ks || j == k;
  }

  lemma KeptAmongAll(c: map<uint8, Inst>, ks: seq<int>, noDrop: FlagSetting, noRent: FlagSetting)
    requires forall k :: k in ks <==> k in c
    ensures KeptAmong(c, ks, noDrop, noRent) == Kept(c, noDrop, noRent)
  {
  }

  /** One step of `ClearByFlags`: the child at key `k` is erased when a filter case fires on it. */
  method ClearStep(orig: map<uint8, Inst>, ks: seq<int>, c: map<uint8, Inst>, k: uint8,
                   noDrop: FlagSetting, noRent: FlagSetting) returns (c': map<uint8, Inst>)
    requires k in orig && c == KeptAmong(orig, ks, noDrop, noRent)
    ensures c' == KeptAmong(orig, ks + [k], noDrop, noRent)
  {
    KeptAmongStep(orig, ks, k, noDrop, noRent);
    var d := GetItemDef(orig[k]);
    c' := c;
    if d.None? {
    } else if Fires(noDrop, d.value.noDrop) {
      c' := c - {k};
    } else if Fires(noRent, d.value.noRent) {
      c' := c - {k};
    }
  }

  /** `ClearByFlags`: one pass over the children in key order, erasing those the filters remove. */
  method ClearByFlags(i: Inst, noDrop: FlagSetting, noRent: FlagSetting) returns (r: Inst)
    ensures r == i.(contents := Kept(i.contents, noDrop, noRent))
  {
    var keys := KeyOrder.Uint8Keys(i.contents.Keys);
    var c := i.contents;
    var n := 0;
    assert keys[..0] == [];
    assert c == KeptAmong(i.contents, [], noDrop, noRent);
    while n < |keys|
      invariant 0 <= n <= |keys|
      invariant forall x :: x in keys <==> x in i.contents.Keys && 0 <= x < 0x100
      invariant c == KeptAmong(i.contents, keys[..n], noDrop, noRent)
    {
      assert keys[n] in keys;
      var k: uint8 := keys[n];
      assert keys[..n + 1] == keys[..n] + [k];
      c := ClearStep(i.contents, keys[..n], c, k, noDrop, noRent);
      n := n + 1;
    }
    assert keys[..n] == keys;
    KeptAmongAll(i.contents, keys, noDrop, noRent);
    r := i.(contents := c);
  }

  /** With both filters ignored nothing is removed; a child without a definition is never removed. */
  lemma ClearByFlagsIgnore(c: map<uint8, Inst>, noDrop: FlagSetting, noRent: FlagSetting, k: uint8)
    ensures Kept(c, byFlagIgnore, byFlagIgnore) == c
    ensures k in c && GetItemDef(c[k]).None? ==> k in Kept(c, noDrop, noRent)
  {
  }

  /** `byFlagSet` on either filter removes every child that has a definition. */
  lemma ClearByFlagsSetRemovesAll(c: map<uint8, Inst>, noDrop: FlagSetting, noRent: FlagSetting, k: uint8)
    requires noDrop == byFlagSet || noRent == byFlagSet
    ensures k in Kept(c, noDrop, noRent) <==> k in c && GetItemDef(c[k]).None?
  {
  }

  /** `byFlagNotSet` removes the children whose flag is non-zero; a child goes if either filter fires. */
  lemma ClearByFlagsNotSet(c: map<uint8, Inst>, k: uint8)
    requires k in c && GetItemDef(c[k]).Some?
    ensures k !in Kept(c, byFlagNotSet, byFlagIgnore) <==> GetItemDef(c[k]).value.noDrop != 0
    ensures k !in Kept(c, byFlagIgnore, byFlagNotSet) <==> GetItemDef(c[k]).value.noRent != 0
    ensures k !in Kept(c, byFlagNotSet, byFlagNotSet)
      <==> GetItemDef(c[k]).value.noDrop != 0 || GetItemDef(c[k]).value.noRent != 0
  {
  }
}
