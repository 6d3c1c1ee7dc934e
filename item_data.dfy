/**
 * The static item definition (`Item_Struct`), the slot structure of the newer
 * clients, the evolve table, and `Item_Struct::IsEquipable`.
 *
 * Only the definition fields that the item engine reads are modelled.  Their
 * widths follow the item-definition header, which is not part of this model.
 */
module ItemData {
  import opened Wrappers
  import opened Constants

  /** One augment-slot type per augment index. */
  type AugTypes = s: seq<uint8> | |s| == MAX_AUGMENTS as int witness Zeros(MAX_AUGMENTS as int)

  /** `n` zero bytes. */
  function Zeros(n: nat): (r: seq<uint8>)
    ensures |r| == n && forall k | 0 <= k < n :: r[k] == 0
  {
    if n == 0 then [] else Zeros(n - 1) + [0]
  }

  datatype ItemDef = ItemDef(
    id: uint32,
    itemClass: uint8,
    itemType: uint8,
    stackable: bool,
    stackSize: int16,
    maxCharges: int16,
    bagSlots: uint8,
    bagSize: uint8,
    bagType: uint8,
    size: uint8,
    slots: uint32,
    augSlotType: AugTypes,
    augType: int32,
    classes: uint32,
    races: uint32,
    noDrop: uint8,
    noRent: uint8,
    loreGroup: int32,
    clickType: int8,
    damage: uint32,
    delay: uint8,
    color: uint32,
    charmFileID: uint32,
    scriptFileID: uint32)

  /**
   * The definition read where the C++ code dereferences a missing definition
   * (undefined behaviour): every number zero and every flag false.
   */
  const ZeroDef: ItemDef := ItemDef(0, 0, 0, false, 0, 0, 0, 0, 0, 0, 0,
    Zeros(MAX_AUGMENTS as int), 0, 0, 0, 0, 0, 0, 0, 0, 0, 0, 0, 0)

  /** The definition behind a possibly-null `Item_Struct*`. */
  function DefOrZero(d: Option<ItemDef>): ItemDef
  {
    if d.Some? then d.value else ZeroDef
  }


  /** `InventorySlot_Struct`: a slot address in the slot-type/main/sub/augment form. */
  datatype SlotStruct = SlotStruct(
    slottype: int16, unknown02: int16, mainslot: int16,
    subslot: int16, augslot: int16, unknown01: int16)

  /** `EvolveInfo`: kills needed for levels 2..10 and the evolve cap. */
  type KillTable = s: seq<uint16> | |s| == 9 witness [0, 0, 0, 0, 0, 0, 0, 0, 0]
  datatype EvolveInfo = EvolveInfo(lvlKills: KillTable, firstItem: uint32, maxLvl: uint8, allKills: bool)

  /**
   * The ten-argument `EvolveInfo` constructor (Item.cpp:2350-2364): each 32-bit kill
   * count is stored in a 16-bit entry.
   */
  function NewEvolveInfo(first: uint32, max: uint8, allkills: bool,
                         l2: uint32, l3: uint32, l4: uint32, l5: uint32, l6: uint32,
                         l7: uint32, l8: uint32, l9: uint32, l10: uint32): (e: EvolveInfo)
    ensures e.firstItem == first && e.maxLvl == max && e.allKills == allkills
    ensures forall k | 0 <= k < 9 :: e.lvlKills[k] == [l2, l3, l4, l5, l6, l7, l8, l9, l10][k] % 0x1_0000
  {
    EvolveInfo([ToUint16(l2), ToUint16(l3), ToUint16(l4), ToUint16(l5), ToUint16(l6),
                ToUint16(l7), ToUint16(l8), ToUint16(l9), ToUint16(l10)], first, max, allkills)
  }

  /** Class `c` (1-based, up to PLAYER_CLASS_COUNT) is enabled in the class mask. */
  predicate ClassAllowed(classes: uint32, c: int)
  {
    1 <= c <= PLAYER_CLASS_COUNT && Bit(classes, c - 1)
  }

  /** The player race after the remap of race index 18 to 16. */
  function RemapRace(r: uint32): uint32
  {
    if r == 18 then 16 else r
  }

  /** Race index `r` (1-based, up to PLAYER_RACE_COUNT) is enabled in the race mask. */
  predicate RaceAllowed(races: uint32, r: int)
  {
    1 <= r <= PLAYER_RACE_COUNT && Bit(races, r - 1)
  }

  /**
   * `Item_Struct::IsEquipable(race, class)`.  The race-table lookup `GetArrayRace`
   * lives outside the item engine; its result is the parameter `arrayRace`.
   */
  method IsEquipableBy(d: ItemDef, raceId: uint16, classId: uint16, arrayRace: uint32) returns (b: bool)
    ensures b <==> ClassAllowed(d.classes, classId) && RaceAllowed(d.races, RemapRace(arrayRace))
  {
    var isRace := false;
    var isClass := false;
    var classesLeft: nat := d.classes;
    var racesLeft: nat := d.races;
    var race := arrayRace;

    var currentClass := 1;
    while currentClass <= PLAYER_CLASS_COUNT
      invariant 1 <= currentClass <= PLAYER_CLASS_COUNT + 1
      invariant classesLeft == ShiftRight(d.classes, currentClass - 1)
      invariant !isClass
      invariant 1 <= classId < currentClass ==> !Bit(d.classes, classId - 1)
    {
      BitIsLowBitOfShift(d.classes, currentClass - 1);
      if classesLeft % 2 == 1 {
        if currentClass == classId {
          isClass := true;
          break;
        }
      }
      ShiftRightStep(d.classes, currentClass - 1);
      classesLeft := classesLeft / 2;
      currentClass := currentClass + 1;
    }

    race := RemapRace(race);

    var currentRace := 1;
    while currentRace <= PLAYER_RACE_COUNT
      invariant 1 <= currentRace <= PLAYER_RACE_COUNT + 1
      invariant racesLeft == ShiftRight(d.races, currentRace - 1)
      invariant !isRace
      invariant 1 <= race < currentRace ==> !Bit(d.races, race - 1)
    {
      BitIsLowBitOfShift(d.races, currentRace - 1);
      if racesLeft % 2 == 1 {
        if currentRace == race {
          isRace := true;
          break;
        }
      }
      ShiftRightStep(d.races, currentRace - 1);
      racesLeft := racesLeft / 2;
      currentRace := currentRace + 1;
    }

    b := isRace && isClass;
  }
}
