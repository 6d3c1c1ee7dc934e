/**
 * The static helpers of `Inventory`: the slot-id codec that maps a container slot
 * and an index to the flat slot id of a bag interior and back, the container
 * capability tests, the material/wear-slot mapping and the slot-structure helpers.
 */
module SlotCodec {
  import opened Wrappers
  import opened Constants
  import opened ItemData

  // ---------------------------------------------------------------------------
  // Container slots and the slot-id codec (Item.cpp:1230-1327, 1365-1372).
  // ---------------------------------------------------------------------------

  /** `SupportsContainers`: the slot may hold a bag whose interior has slot ids. */
  predicate SupportsContainers(slotId: int16)
  {
    (22 <= slotId <= 30) || IsBankSlot(slotId) || IsSharedBankSlot(slotId)
    || slotId == SLOT_CURSOR || IsTradeSlot(slotId)
  }

  /** `CalcSlotId(bagslot_id, bagidx)`: flat slot id of index `bagidx` inside the bag at `bagslotId`. */
  function CalcSlotId(bagslotId: int16, bagidx: uint8): (r: int16)
    ensures r == SLOT_INVALID || InKnownBand(r)
    ensures r != SLOT_INVALID ==> SupportsContainers(bagslotId)
  {
    if !SupportsContainers(bagslotId) then SLOT_INVALID
    else if bagslotId == SLOT_CURSOR || bagslotId == 8000 then IDX_CURSOR_BAG + bagidx
    else if 22 <= bagslotId <= 29 then IDX_INV_BAG + (bagslotId - 22) * MAX_ITEMS_PER_BAG + bagidx
    else if IsBankSlot(bagslotId) then IDX_BANK_BAG + (bagslotId - 2000) * MAX_ITEMS_PER_BAG + bagidx
    else if IsSharedBankSlot(bagslotId) then IDX_SHBANK_BAG + (bagslotId - 2500) * MAX_ITEMS_PER_BAG + bagidx
    else if IsTradeSlot(bagslotId) then IDX_TRADE_BAG + (bagslotId - 3000) * MAX_ITEMS_PER_BAG + bagidx
    else SLOT_INVALID
  }

  /** `CalcSlotId(slot_id)`: the slot holding the bag that contains `slotId`. */
  function CalcParentSlotId(slotId: int16): (r: int16)
    ensures r == SLOT_INVALID || r == SLOT_CURSOR || IsTopLevelSlot(r)
  {
    if 251 <= slotId <= 330 then IDX_INV + (slotId - 251) / MAX_ITEMS_PER_BAG
    else if 331 <= slotId <= 340 then SLOT_CURSOR
    else if 2000 <= slotId <= 2023 then IDX_BANK + (slotId - 2000) / MAX_ITEMS_PER_BAG
    else if 2031 <= slotId <= 2270 then IDX_BANK + (slotId - 2031) / MAX_ITEMS_PER_BAG
    else if 2531 <= slotId <= 2550 then IDX_SHBANK + (slotId - 2531) / MAX_ITEMS_PER_BAG
    else if 3100 <= slotId <= 3179 then IDX_TRADE + (slotId - 3100) / MAX_ITEMS_PER_BAG
    else SLOT_INVALID
  }

  /** `CalcBagIdx(slot_id)`: the index of `slotId` inside its bag. */
  function CalcBagIdx(slotId: int16): (r: uint8)
    ensures r < MAX_ITEMS_PER_BAG
  {
    if 251 <= slotId <= 330 then (slotId - 251) % MAX_ITEMS_PER_BAG
    else if 331 <= slotId <= 340 then (slotId - 331) % MAX_ITEMS_PER_BAG
    else if 2000 <= slotId <= 2023 then (slotId - 2000) % MAX_ITEMS_PER_BAG
    else if 2031 <= slotId <= 2270 then (slotId - 2031) % MAX_ITEMS_PER_BAG
    else if 2531 <= slotId <= 2550 then (slotId - 2531) % MAX_ITEMS_PER_BAG
    else if 3100 <= slotId <= 3179 then (slotId - 3100) % MAX_ITEMS_PER_BAG
    else if 4000 <= slotId <= 4009 then (slotId - 4000) % MAX_ITEMS_PER_BAG
    else 0
  }

  /** Slot ids of bag interiors that the codec decodes to a parent and an index. */
  predicate IsDecodableBagSlot(s: int)
  {
    251 <= s <= 340 || 2031 <= s <= 2270 || 2531 <= s <= 2550
  }

  /** Personal, bank and shared-bank bags: encoding an index below 10 and decoding it gives both back. */
  lemma BagSlotRoundTrip(bagslotId: int16, bagidx: uint8)
    requires IsPersonalSlot(bagslotId) || IsBankSlot(bagslotId) || IsSharedBankSlot(bagslotId)
    requires bagidx < MAX_ITEMS_PER_BAG
    ensures IsDecodableBagSlot(CalcSlotId(bagslotId, bagidx))
    ensures CalcParentSlotId(CalcSlotId(bagslotId, bagidx)) == bagslotId
    ensures CalcBagIdx(CalcSlotId(bagslotId, bagidx)) == bagidx
  {
  }

  /** The cursor bag: index `i` below 10 is slot 331 + i, which decodes back to the cursor and `i`. */
  lemma CursorBagRoundTrip(bagidx: uint8)
    requires bagidx < MAX_ITEMS_PER_BAG
    ensures CalcSlotId(SLOT_CURSOR, bagidx) == IDX_CURSOR_BAG + bagidx
    ensures CalcParentSlotId(CalcSlotId(SLOT_CURSOR, bagidx)) == SLOT_CURSOR
    ensures CalcBagIdx(CalcSlotId(SLOT_CURSOR, bagidx)) == bagidx
  {
  }

  /** Every decodable bag-interior id is re-encoded from its parent and index. */
  lemma DecodeEncode(slotId: int16)
    requires IsDecodableBagSlot(slotId)
    ensures CalcSlotId(CalcParentSlotId(slotId), CalcBagIdx(slotId)) == slotId
  {
  }

  /**
   * Trade bags do not round-trip: the encoder places trade-bag interiors at
   * 3031..3110 while the decoder reads 3100..3179, so no parent comes back.
   */
  lemma TradeBagNoRoundTrip(bagslotId: int16, bagidx: uint8)
    requires IsTradeSlot(bagslotId) && bagidx < MAX_ITEMS_PER_BAG
    ensures CalcSlotId(bagslotId, bagidx) == IDX_TRADE_BAG + (bagslotId - 3000) * 10 + bagidx
    ensures CalcParentSlotId(CalcSlotId(bagslotId, bagidx)) != bagslotId
  {
  }

  /** A decoded trade-bag id re-encodes 69 slots lower. */
  lemma TradeBagDecodeShift(slotId: int16)
    requires 3100 <= slotId <= 3179
    ensures CalcSlotId(CalcParentSlotId(slotId), CalcBagIdx(slotId)) == slotId - 69
  {
  }

  /** Bank slots 2000..2023 are themselves decoded as if they were bag interiors of bank slots 2000..2002. */
  lemma BankSlotsDecodeAsBagInteriors(slotId: int16)
    requires IsBankSlot(slotId)
    ensures CalcParentSlotId(slotId) == 2000 + (slotId - 2000) / 10
    ensures CalcBagIdx(slotId) == (slotId - 2000) % 10
  {
  }

  /** The tradeskill-container band has indices but no parent slot. */
  lemma TradeskillBand(slotId: int16)
    requires IDX_TRADESKILL <= slotId <= IDX_TRADESKILL + 9
    ensures CalcBagIdx(slotId) == slotId - IDX_TRADESKILL
    ensures CalcParentSlotId(slotId) == SLOT_INVALID
  {
  }

  /** The cursor alias 8000 is never reached: 8000 does not support containers. */
  lemma CursorAliasUnreachable(bagidx: uint8)
    ensures !SupportsContainers(8000)
    ensures CalcSlotId(8000, bagidx) == SLOT_INVALID
  {
  }

  /** Slots outside every decodable band have no parent and index 0. */
  lemma OutOfBandDecode(slotId: int16)
    requires !(251 <= slotId <= 340 || 2000 <= slotId <= 2023 || 2031 <= slotId <= 2270
            || 2531 <= slotId <= 2550 || 3100 <= slotId <= 3179 || 4000 <= slotId <= 4009)
    ensures CalcParentSlotId(slotId) == SLOT_INVALID
    ensures CalcBagIdx(slotId) == 0
  {
  }

  /** Worked examples: 251 is index 0 of bag 22, 260 is index 9 of bag 22, 261 is index 0 of bag 23. */
  lemma FirstPersonalBagSlots()
    ensures CalcParentSlotId(251) == 22 && CalcBagIdx(251) == 0
    ensures CalcParentSlotId(260) == 22 && CalcBagIdx(260) == 9
    ensures CalcParentSlotId(261) == 23 && CalcBagIdx(261) == 0
    ensures CalcSlotId(29, 9) == 330
  {
  }

  /** The cursor bag band starts right after the eight personal bags. */
  lemma BandsAreContiguous()
    ensures IDX_INV_BAG + 8 * MAX_ITEMS_PER_BAG == IDX_CURSOR_BAG
    ensures IDX_BANK_BAG + 24 * MAX_ITEMS_PER_BAG == 2271
    ensures IDX_SHBANK_BAG + 2 * MAX_ITEMS_PER_BAG == 2551
  {
  }

  /** `CanItemFitInContainer`: size, quiver and bandolier rules. */
  predicate CanItemFitInContainer(itemToTry: Option<ItemDef>, container: Option<ItemDef>)
  {
    if itemToTry.None? || container.None? then false
    else if itemToTry.value.size > container.value.bagSize then false
    else if container.value.bagType == bagTypeQuiver && itemToTry.value.itemType != ItemTypeArrow then false
    else if container.value.bagType == bagTypeBandolier && itemToTry.value.itemType != ItemTypeThrowingv2 then false
    else true
  }

  /** The fit test holds exactly when both definitions exist and every bag rule admits the item. */
  lemma CanItemFitInContainerMeaning(itemToTry: Option<ItemDef>, container: Option<ItemDef>)
    ensures CanItemFitInContainer(itemToTry, container) <==>
      itemToTry.Some? && container.Some?
      && itemToTry.value.size <= container.value.bagSize
      && (container.value.bagType == bagTypeQuiver ==> itemToTry.value.itemType == ItemTypeArrow)
      && (container.value.bagType == bagTypeBandolier ==> itemToTry.value.itemType == ItemTypeThrowingv2)
  {
  }

  // ---------------------------------------------------------------------------
  // Materials and wear slots (Item.cpp:1329-1362).
  // ---------------------------------------------------------------------------

  /** `CalcSlotFromMaterial`: the wear slot showing a material, -1 for an unknown material. */
  function CalcSlotFromMaterial(material: uint8): int16
  {
    if material == MATERIAL_HEAD then SLOT_HEAD
    else if material == MATERIAL_CHEST then SLOT_CHEST
    else if material == MATERIAL_ARMS then SLOT_ARMS
    else if material == MATERIAL_BRACER then SLOT_BRACER01
    else if material == MATERIAL_HANDS then SLOT_HANDS
    else if material == MATERIAL_LEGS then SLOT_LEGS
    else if material == MATERIAL_FEET then SLOT_FEET
    else if material == MATERIAL_PRIMARY then SLOT_PRIMARY
    else if material == MATERIAL_SECONDARY then SLOT_SECONDARY
    else -1
  }

  /** `CalcMaterialFromSlot`: the material shown by a wear slot, 0xFF for other slots. */
  function CalcMaterialFromSlot(equipSlot: int16): uint8
  {
    if equipSlot == SLOT_HEAD then MATERIAL_HEAD
    else if equipSlot == SLOT_CHEST then MATERIAL_CHEST
    else if equipSlot == SLOT_ARMS then MATERIAL_ARMS
    else if equipSlot == SLOT_BRACER01 || equipSlot == SLOT_BRACER02 then MATERIAL_BRACER
    else if equipSlot == SLOT_HANDS then MATERIAL_HANDS
    else if equipSlot == SLOT_LEGS then MATERIAL_LEGS
    else if equipSlot == SLOT_FEET then MATERIAL_FEET
    else if equipSlot == SLOT_PRIMARY then MATERIAL_PRIMARY
    else if equipSlot == SLOT_SECONDARY then MATERIAL_SECONDARY
    else 0xFF
  }

  /** Every material maps to a slot that maps back to it. */
  lemma MaterialRoundTrip(material: uint8)
    requires material in MaterialList(MaterialIds)
    ensures CalcSlotFromMaterial(material) in WearSlotList(WearSlotIds)
    ensures CalcMaterialFromSlot(CalcSlotFromMaterial(material)) == material
  {
    MaterialsDistinct();
    WearSlotsDistinct();
  }

  /** Every wear slot maps to a material that maps back to it, except the second bracer, which maps to the first. */
  lemma WearSlotRoundTrip(equipSlot: int16)
    requires equipSlot in WearSlotList(WearSlotIds)
    ensures CalcMaterialFromSlot(equipSlot) in MaterialList(MaterialIds)
    ensures CalcSlotFromMaterial(CalcMaterialFromSlot(equipSlot))
      == (if equipSlot == SLOT_BRACER02 then SLOT_BRACER01 else equipSlot)
  {
    MaterialsDistinct();
    WearSlotsDistinct();
  }

  /** Unknown materials and unknown slots map to the sentinels. */
  lemma MaterialSentinels(material: uint8, equipSlot: int16)
    requires material !in MaterialList(MaterialIds)
    requires equipSlot !in WearSlotList(WearSlotIds)
    ensures CalcSlotFromMaterial(material) == -1
    ensures CalcMaterialFromSlot(equipSlot) == 0xFF
    ensures CalcMaterialFromSlot(CalcSlotFromMaterial(material)) == 0xFF
  {
    assert -1 !in WearSlotList(WearSlotIds);
  }

  lemma MaterialsDistinct()
    ensures MATERIAL_HEAD != MATERIAL_CHEST && MATERIAL_HEAD != MATERIAL_ARMS && MATERIAL_HEAD != MATERIAL_BRACER
    ensures MATERIAL_HEAD != MATERIAL_HANDS && MATERIAL_HEAD != MATERIAL_LEGS && MATERIAL_HEAD != MATERIAL_FEET
    ensures MATERIAL_HEAD != MATERIAL_PRIMARY && MATERIAL_HEAD != MATERIAL_SECONDARY
    ensures MATERIAL_CHEST != MATERIAL_ARMS && MATERIAL_CHEST != MATERIAL_BRACER && MATERIAL_CHEST != MATERIAL_HANDS
    ensures MATERIAL_CHEST != MATERIAL_LEGS && MATERIAL_CHEST != MATERIAL_FEET && MATERIAL_CHEST != MATERIAL_PRIMARY
    ensures MATERIAL_CHEST != MATERIAL_SECONDARY
    ensures MATERIAL_ARMS != MATERIAL_BRACER && MATERIAL_ARMS != MATERIAL_HANDS && MATERIAL_ARMS != MATERIAL_LEGS
    ensures MATERIAL_ARMS != MATERIAL_FEET && MATERIAL_ARMS != MATERIAL_PRIMARY && MATERIAL_ARMS != MATERIAL_SECONDARY
    ensures MATERIAL_BRACER != MATERIAL_HANDS && MATERIAL_BRACER != MATERIAL_LEGS && MATERIAL_BRACER != MATERIAL_FEET
    ensures MATERIAL_BRACER != MATERIAL_PRIMARY && MATERIAL_BRACER != MATERIAL_SECONDARY
    ensures MATERIAL_HANDS != MATERIAL_LEGS && MATERIAL_HANDS != MATERIAL_FEET && MATERIAL_HANDS != MATERIAL_PRIMARY
    ensures MATERIAL_HANDS != MATERIAL_SECONDARY
    ensures MATERIAL_LEGS != MATERIAL_FEET && MATERIAL_LEGS != MATERIAL_PRIMARY && MATERIAL_LEGS != MATERIAL_SECONDARY
    ensures MATERIAL_FEET != MATERIAL_PRIMARY && MATERIAL_FEET != MATERIAL_SECONDARY
    ensures MATERIAL_PRIMARY != MATERIAL_SECONDARY
  {
    var m := MaterialList(MaterialIds);
    assert DistinctCodes(m);
    assert m[0] != m[1] && m[0] != m[2] && m[0] != m[3] && m[0] != m[4] && m[0] != m[5] && m[0] != m[6] && m[0] != m[7] && m[0] != m[8];
    assert m[1] != m[2] && m[1] != m[3] && m[1] != m[4] && m[1] != m[5] && m[1] != m[6] && m[1] != m[7] && m[1] != m[8];
    assert m[2] != m[3] && m[2] != m[4] && m[2] != m[5] && m[2] != m[6] && m[2] != m[7] && m[2] != m[8];
    assert m[3] != m[4] && m[3] != m[5] && m[3] != m[6] && m[3] != m[7] && m[3] != m[8];
    assert m[4] != m[5] && m[4] != m[6] && m[4] != m[7] && m[4] != m[8];
    assert m[5] != m[6] && m[5] != m[7] && m[5] != m[8];
    assert m[6] != m[7] && m[6] != m[8];
    assert m[7] != m[8];
  }

  lemma WearSlotsDistinct()
    ensures SLOT_HEAD != SLOT_CHEST && SLOT_HEAD != SLOT_ARMS && SLOT_HEAD != SLOT_BRACER01 && SLOT_HEAD != SLOT_BRACER02
    ensures SLOT_HEAD != SLOT_HANDS && SLOT_HEAD != SLOT_LEGS && SLOT_HEAD != SLOT_FEET
    ensures SLOT_HEAD != SLOT_PRIMARY && SLOT_HEAD != SLOT_SECONDARY
    ensures SLOT_CHEST != SLOT_ARMS && SLOT_CHEST != SLOT_BRACER01 && SLOT_CHEST != SLOT_BRACER02
    ensures SLOT_CHEST != SLOT_HANDS && SLOT_CHEST != SLOT_LEGS && SLOT_CHEST != SLOT_FEET
    ensures SLOT_CHEST != SLOT_PRIMARY && SLOT_CHEST != SLOT_SECONDARY
    ensures SLOT_ARMS != SLOT_BRACER01 && SLOT_ARMS != SLOT_BRACER02 && SLOT_ARMS != SLOT_HANDS
    ensures SLOT_ARMS != SLOT_LEGS && SLOT_ARMS != SLOT_FEET && SLOT_ARMS != SLOT_PRIMARY && SLOT_ARMS != SLOT_SECONDARY
    ensures SLOT_BRACER01 != SLOT_BRACER02 && SLOT_BRACER01 != SLOT_HANDS && SLOT_BRACER01 != SLOT_LEGS
    ensures SLOT_BRACER01 != SLOT_FEET && SLOT_BRACER01 != SLOT_PRIMARY && SLOT_BRACER01 != SLOT_SECONDARY
    ensures SLOT_BRACER02 != SLOT_HANDS && SLOT_BRACER02 != SLOT_LEGS && SLOT_BRACER02 != SLOT_FEET
    ensures SLOT_BRACER02 != SLOT_PRIMARY && SLOT_BRACER02 != SLOT_SECONDARY
    ensures SLOT_HANDS != SLOT_LEGS && SLOT_HANDS != SLOT_FEET && SLOT_HANDS != SLOT_PRIMARY && SLOT_HANDS != SLOT_SECONDARY
    ensures SLOT_LEGS != SLOT_FEET && SLOT_LEGS != SLOT_PRIMARY && SLOT_LEGS != SLOT_SECONDARY
    ensures SLOT_FEET != SLOT_PRIMARY && SLOT_FEET != SLOT_SECONDARY
    ensures SLOT_PRIMARY != SLOT_SECONDARY
  {
    var w := WearSlotList(WearSlotIds);
    assert DistinctCodes(w);
    assert w[0] != w[1] && w[0] != w[2] && w[0] != w[3] && w[0] != w[4] && w[0] != w[5] && w[0] != w[6] && w[0] != w[7] && w[0] != w[8] && w[0] != w[9];
    assert w[1] != w[2] && w[1] != w[3] && w[1] != w[4] && w[1] != w[5] && w[1] != w[6] && w[1] != w[7] && w[1] != w[8] && w[1] != w[9];
    assert w[2] != w[3] && w[2] != w[4] && w[2] != w[5] && w[2] != w[6] && w[2] != w[7] && w[2] != w[8] && w[2] != w[9];
    assert w[3] != w[4] && w[3] != w[5] && w[3] != w[6] && w[3] != w[7] && w[3] != w[8] && w[3] != w[9];
    assert w[4] != w[5] && w[4] != w[6] && w[4] != w[7] && w[4] != w[8] && w[4] != w[9];
    assert w[5] != w[6] && w[5] != w[7] && w[5] != w[8] && w[5] != w[9];
    assert w[6] != w[7] && w[6] != w[8] && w[6] != w[9];
    assert w[7] != w[8] && w[7] != w[9];
    assert w[8] != w[9];
  }

  // ---------------------------------------------------------------------------
  // Slot-structure helpers (Item.cpp:1177-1227).
  // ---------------------------------------------------------------------------

  /** `IsDeleteRequest`: every address field holds its invalid value. */
  predicate IsDeleteRequest(s: SlotStruct)
  {
    s.slottype == SLOTTYPE_INVALID && s.mainslot == MAINSLOT_INVALID
    && s.subslot == SUBSLOT_INVALID && s.augslot == AUGSLOT_INVALID
  }

  /** `InvalidateSlotStruct`: the structure after all its fields are overwritten. */
  function InvalidateSlotStruct(s: SlotStruct): (r: SlotStruct)
    ensures IsDeleteRequest(r)
    ensures r.unknown01 == 0 && r.unknown02 == 0
  {
    SlotStruct(SLOTTYPE_INVALID, 0, MAINSLOT_INVALID, SUBSLOT_INVALID, AUGSLOT_INVALID, 0)
  }

  /** `IsValidServerSlotStruct`: no structure is a valid server slot. */
  function IsValidServerSlotStruct(s: SlotStruct): (r: bool)
    ensures !r
  {
    if IsDeleteRequest(s) then false else false
  }

  /** `IsValidMobSlotStruct`: only a delete request is valid. */
  function IsValidMobSlotStruct(s: SlotStruct): (r: bool)
    ensures r <==> IsDeleteRequest(s)
  {
    if IsDeleteRequest(s) then true else false
  }

  /** `IsValidClientSlotStruct`: only a delete request is valid. */
  function IsValidClientSlotStruct(s: SlotStruct): (r: bool)
    ensures r <==> IsDeleteRequest(s)
  {
    if IsDeleteRequest(s) then true else false
  }

  /** An invalidated structure is accepted as a mob or client delete request and rejected for the server. */
  lemma InvalidatedIsDeleteRequest(s: SlotStruct)
    ensures IsValidMobSlotStruct(InvalidateSlotStruct(s))
    ensures IsValidClientSlotStruct(InvalidateSlotStruct(s))
    ensures !IsValidServerSlotStruct(InvalidateSlotStruct(s))
  {
  }
}
