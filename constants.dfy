/**
 * Integer widths, slot-number bands and the named constants of the item engine.
 *
 * Band numbers that the item code spells out (Item.h:61-73 and the literal ranges
 * in Item.cpp) are concrete.  Constants whose values live in headers outside this
 * model are declared without a value; their subset types carry only the facts the
 * item code relies on (for instance that two labels of one C++ `switch` differ).
 */
module Constants {

  // ---------------------------------------------------------------------------
  // Fixed-width integers of the C++ source, and the conversions it performs.
  // ---------------------------------------------------------------------------

  type int8 = x: int | -0x80 <= x < 0x80
  type uint8 = x: int | 0 <= x < 0x100
  type int16 = x: int | -0x8000 <= x < 0x8000
  type uint16 = x: int | 0 <= x < 0x1_0000
  type int32 = x: int | -0x8000_0000 <= x < 0x8000_0000
  type uint32 = x: int | 0 <= x < 0x1_0000_0000

  const INT_MAX: int32 := 0x7FFF_FFFF
  const UINT32_MAX: uint32 := 0xFFFF_FFFF

  /** Conversion to int8: keeps the value when it fits, otherwise wraps modulo 2^8. */
  function ToInt8(x: int): (r: int8)
    ensures -0x80 <= x < 0x80 ==> r == x
    ensures (x - r) % 0x100 == 0
  {
    var m := x % 0x100;
    if m < 0x80 then m else m - 0x100
  }

  /** Conversion to uint8: reduction modulo 2^8. */
  function ToUint8(x: int): (r: uint8)
    ensures 0 <= x < 0x100 ==> r == x
    ensures (x - r) % 0x100 == 0
  {
    x % 0x100
  }

  /** Incrementing a wrapped byte wraps the incremented value. */
  lemma ToUint8Succ(x: int)
    ensures ToUint8(ToUint8(x) + 1) == ToUint8(x + 1)
  {
  }

  /** Conversion to int16: keeps the value when it fits, otherwise wraps modulo 2^16. */
  function ToInt16(x: int): (r: int16)
    ensures -0x8000 <= x < 0x8000 ==> r == x
    ensures (x - r) % 0x1_0000 == 0
  {
    var m := x % 0x1_0000;
    if m < 0x8000 then m else m - 0x1_0000
  }

  /** Conversion to uint16: reduction modulo 2^16. */
  function ToUint16(x: int): (r: uint16)
    ensures 0 <= x < 0x1_0000 ==> r == x
    ensures (x - r) % 0x1_0000 == 0
  {
    x % 0x1_0000
  }

  /** Conversion to uint32: reduction modulo 2^32. */
  function ToUint32(x: int): (r: uint32)
    ensures 0 <= x < 0x1_0000_0000 ==> r == x
    ensures (x - r) % 0x1_0000_0000 == 0
  {
    x % 0x1_0000_0000
  }

  /** Bit `k` of a non-negative mask, i.e. `(mask & (1 << k)) != 0` for a shift that is defined. */
  predicate Bit(mask: nat, k: nat)
  {
    if k == 0 then mask % 2 == 1 else Bit(mask / 2, k - 1)
  }

  /** The mask shifted right `k` times, i.e. `mask >> k` on an unsigned value. */
  function ShiftRight(mask: nat, k: nat): nat
  {
    if k == 0 then mask else ShiftRight(mask / 2, k - 1)
  }

  /** Bit `k` is the low bit of the mask shifted right `k` times: the loop form of a bit test. */
  lemma {:induction false} BitIsLowBitOfShift(mask: nat, k: nat)
    ensures Bit(mask, k) <==> ShiftRight(mask, k) % 2 == 1
  {
    if k > 0 {
      BitIsLowBitOfShift(mask / 2, k - 1);
    }
  }

  /** Shifting once more halves the shifted value. */
  lemma {:induction false} ShiftRightStep(mask: nat, k: nat)
    ensures ShiftRight(mask, k + 1) == ShiftRight(mask, k) / 2
  {
    if k > 0 {
      ShiftRightStep(mask / 2, k - 1);
    }
  }

  /** `(a & b) != 0` on non-negative values: some bit is set in both. */
  predicate AndNonZero(a: nat, b: nat)
  {
    a > 0 && b > 0 && ((a % 2 == 1 && b % 2 == 1) || AndNonZero(a / 2, b / 2))
  }

  function Pow2(n: nat): (p: nat)
    ensures p >= 1
  {
    if n == 0 then 1 else 2 * Pow2(n - 1)
  }

  /** Bits added above the low `n` bits keep a common low bit. */
  lemma {:induction false} AddHighBits(y: nat, h: nat, b: nat, n: nat)
    requires y < Pow2(n)
    requires AndNonZero(y, b)
    ensures AndNonZero(Pow2(n) * h + y, b)
  {
    if n > 0 {
      var m := Pow2(n - 1) * h;
      assert Pow2(n) * h == 2 * m;
      var a := 2 * m + y;
      assert a % 2 == y % 2 && a / 2 == m + y / 2;
      if !(y % 2 == 1 && b % 2 == 1) {
        AddHighBits(y / 2, h, b / 2, n - 1);
      }
    }
  }

  /** A bit shared by the low byte of `a` and by `b` is shared by `a` and `b`. */
  lemma LowByteAnd(a: nat, b: nat)
    requires AndNonZero(a % 0x100, b)
    ensures AndNonZero(a, b)
  {
    assert Pow2(8) == 0x100;
    assert a == 0x100 * (a / 0x100) + a % 0x100;
    AddHighBits(a % 0x100, a / 0x100, b, 8);
  }

  // ---------------------------------------------------------------------------
  // Slot-number bands (Item.h:61-73 and the literal ranges of Item.cpp).
  // ---------------------------------------------------------------------------

  const IDX_EQUIP: int16 := 0
  const IDX_CURSOR_BAG: int16 := 331
  const IDX_INV: int16 := 22
  const IDX_INV_BAG: int16 := 251
  const IDX_TRIBUTE: int16 := 400
  const IDX_BANK: int16 := 2000
  const IDX_BANK_BAG: int16 := 2031
  const IDX_SHBANK: int16 := 2500
  const IDX_SHBANK_BAG: int16 := 2531
  const IDX_TRADE: int16 := 3000
  const IDX_TRADE_BAG: int16 := 3031
  const IDX_TRADESKILL: int16 := 4000
  const MAX_ITEMS_PER_BAG: int16 := 10

  /** Worn slots: equipment 0..21, tribute 400..404 and the power-source slot 9999. */
  predicate IsWornSlot(s: int) { 0 <= s <= 21 || 400 <= s <= 404 || s == 9999 }
  /** The eight personal inventory slots. */
  predicate IsPersonalSlot(s: int) { 22 <= s <= 29 }
  predicate IsBankSlot(s: int) { 2000 <= s <= 2023 }
  predicate IsSharedBankSlot(s: int) { 2500 <= s <= 2501 }
  predicate IsTradeSlot(s: int) { 3000 <= s <= 3007 }

  /** Slots whose item is held directly in one of the inventory's maps. */
  predicate IsTopLevelSlot(s: int)
  {
    IsWornSlot(s) || IsPersonalSlot(s) || IsBankSlot(s) || IsSharedBankSlot(s) || IsTradeSlot(s)
  }

  /**
   * Every slot number that the routing code tests for or that the slot-id codec can
   * produce from a container slot and an index below 256.
   */
  predicate InKnownBand(s: int)
  {
    0 <= s <= 29 || 251 <= s <= 586 || 2000 <= s <= 2796 || 3000 <= s <= 3356
    || 4000 <= s <= 4009 || s == 8000 || s == 9999
  }

  /** The cursor lies outside every numbered band (slot 30, listed beside the personal slots, is allowed). */
  type CursorSlotId = s: int16 | !InKnownBand(s) witness 30
  const SLOT_CURSOR: CursorSlotId

  /** The invalid-slot sentinel differs from every real slot and from the cursor. */
  type InvalidSlotId = s: int16 | !InKnownBand(s) && s != 30 && s != SLOT_CURSOR
    witness if SLOT_CURSOR == -1 then -2 else -1
  const SLOT_INVALID: InvalidSlotId

  /** Returned by the item searches when the match is an augment. */
  const SLOT_AUGMENT: int16

  /** Sub-slot indices with one of these bits set are out of range for a container. */
  const MCONTENTS_OOR: uint16

  const SUBSLOT_INVALID: int16
  const SUBSLOT_START: int16
  const AUGSLOT_INVALID: int16
  /** First augment index; the code uses it to index an augment-type array, so it is not negative. */
  const AUGSLOT_START: uint8
  /** Number of augment-type entries in an item definition. */
  const MAX_AUGMENTS: uint8
  /** Number of augment slots the item searches look at. */
  const MAX_AUGMENT_SLOTS: uint8
  const MAINSLOT_INVALID: int16
  const MAINSLOT_START: int16
  const SLOTTYPE_INVALID: int16
  /** First slot type; it indexes the slot-type size table, so it lies within that table. */
  type SlotTypeStart = x: int16 | 0 <= x <= 25 witness 0
  const SLOTTYPE_START: SlotTypeStart

  /** Equipment slot numbers are shifted into a 32-bit wear mask, so they lie in 0..31. */
  type EquipmentSlotBound = x: int16 | 0 <= x <= 31 witness 0
  const EQUIPMENT_START: EquipmentSlotBound
  const EQUIPMENT_END: EquipmentSlotBound
  const PERSONAL_START: int16

  // ---------------------------------------------------------------------------
  // Slot types of the RoF-style slot structure (Item.h:336-360, Item.cpp:33-44).
  // ---------------------------------------------------------------------------

  const SlotType_Possessions: int16 := 0
  const SlotType_Bank: int16 := 1
  const SlotType_SharedBank: int16 := 2
  const SlotType_Trade: int16 := 3
  const SlotType_World: int16 := 4
  const SlotType_Limbo: int16 := 5
  const SlotType_Tribute: int16 := 6
  const SlotType_TrophyTribute: int16 := 7
  const SlotType_GuildTribute: int16 := 8
  const SlotType_Merchant: int16 := 9
  const SlotType_Deleted: int16 := 10
  const SlotType_Corpse: int16 := 11
  const SlotType_Bazaar: int16 := 12
  const SlotType_Inspect: int16 := 13
  const SlotType_RealEstate: int16 := 14
  const SlotType_ViewMODPC: int16 := 15
  const SlotType_ViewMODBank: int16 := 16
  const SlotType_ViewMODSharedBank: int16 := 17
  const SlotType_ViewMODLimbo: int16 := 18
  const SlotType_AltStorage: int16 := 19
  const SlotType_Archived: int16 := 20
  const SlotType_Mail: int16 := 21
  const SlotType_GuildTrophyTribute: int16 := 22
  const SlotType_Krono: int16 := 23
  const SlotType_Other: int16 := 24
  const SlotType_Count: int16 := 25

  /** One size per slot type. */
  type SizeTable = s: seq<int16> | |s| == SlotType_Count as int
    witness [0, 0, 0, 0, 0, 0, 0, 0, 0, 0, 0, 0, 0, 0, 0, 0, 0, 0, 0, 0, 0, 0, 0, 0, 0]

  /** The server's slot-type sizes (`ServerInventoryLimits`). */
  const ServerInventoryLimits: SizeTable

  // ---------------------------------------------------------------------------
  // Item classes, item types and bag types.
  // ---------------------------------------------------------------------------

  /** The item-class codes; the code compares against each, so they are pairwise distinct. */
  datatype ItemClassCodes = ItemClassCodes(common: uint8, container: uint8, book: uint8)
  type DistinctItemClasses = c: ItemClassCodes | c.common != c.container && c.common != c.book && c.container != c.book
    witness ItemClassCodes(0, 1, 2)
  const ItemClasses: DistinctItemClasses
  const ItemClassCommon: uint8 := ItemClasses.common
  const ItemClassContainer: uint8 := ItemClasses.container
  const ItemClassBook: uint8 := ItemClasses.book

  const ItemTypeArrow: uint8
  const ItemTypeThrowing: uint8
  const ItemTypeThrowingv2: uint8
  const ItemTypePotion: uint8
  const ET_Expendable: int8
  const bagTypeQuiver: uint8
  const bagTypeBandolier: uint8

  const PLAYER_CLASS_COUNT: nat
  const PLAYER_RACE_COUNT: nat

  // ---------------------------------------------------------------------------
  // Wear slots and materials (the labels of the two switches at Item.cpp:1329-1362,
  // which the C++ compiler requires to be distinct).
  // ---------------------------------------------------------------------------

  datatype WearSlotCodes = WearSlotCodes(
    head: int16, chest: int16, arms: int16, bracer01: int16, bracer02: int16,
    hands: int16, legs: int16, feet: int16, primary: int16, secondary: int16)

  function WearSlotList(w: WearSlotCodes): seq<int16>
  {
    [w.head, w.chest, w.arms, w.bracer01, w.bracer02, w.hands, w.legs, w.feet, w.primary, w.secondary]
  }

  predicate DistinctCodes(s: seq<int>)
  {
    forall i, j :: 0 <= i < j < |s| ==> s[i] != s[j]
  }

  type WearSlots = w: WearSlotCodes | DistinctCodes(WearSlotList(w)) && -1 !in WearSlotList(w)
    witness WearSlotCodes(2, 17, 7, 9, 10, 12, 18, 19, 13, 14)
  const WearSlotIds: WearSlots

  const SLOT_HEAD: int16 := WearSlotIds.head
  const SLOT_CHEST: int16 := WearSlotIds.chest
  const SLOT_ARMS: int16 := WearSlotIds.arms
  const SLOT_BRACER01: int16 := WearSlotIds.bracer01
  const SLOT_BRACER02: int16 := WearSlotIds.bracer02
  const SLOT_HANDS: int16 := WearSlotIds.hands
  const SLOT_LEGS: int16 := WearSlotIds.legs
  const SLOT_FEET: int16 := WearSlotIds.feet
  const SLOT_PRIMARY: int16 := WearSlotIds.primary
  const SLOT_SECONDARY: int16 := WearSlotIds.secondary

  datatype MaterialCodes = MaterialCodes(
    head: uint8, chest: uint8, arms: uint8, bracer: uint8, hands: uint8,
    legs: uint8, feet: uint8, primary: uint8, secondary: uint8)

  function MaterialList(m: MaterialCodes): seq<uint8>
  {
    [m.head, m.chest, m.arms, m.bracer, m.hands, m.legs, m.feet, m.primary, m.secondary]
  }

  type Materials = m: MaterialCodes | DistinctCodes(MaterialList(m)) && 0xFF !in MaterialList(m)
    witness MaterialCodes(0, 1, 2, 3, 4, 5, 6, 7, 8)
  const MaterialIds: Materials

  const MATERIAL_HEAD: uint8 := MaterialIds.head
  const MATERIAL_CHEST: uint8 := MaterialIds.chest
  const MATERIAL_ARMS: uint8 := MaterialIds.arms
  const MATERIAL_BRACER: uint8 := MaterialIds.bracer
  const MATERIAL_HANDS: uint8 := MaterialIds.hands
  const MATERIAL_LEGS: uint8 := MaterialIds.legs
  const MATERIAL_FEET: uint8 := MaterialIds.feet
  const MATERIAL_PRIMARY: uint8 := MaterialIds.primary
  const MATERIAL_SECONDARY: uint8 := MaterialIds.secondary

  // ---------------------------------------------------------------------------
  // Search scopes and flag filters (Item.h:76-98).
  // ---------------------------------------------------------------------------

  datatype ItemUseType = ItemUseNormal | ItemUseWorldContainer

  /** Filter setting of ClearByFlags. */
  datatype FlagSetting = byFlagIgnore | byFlagSet | byFlagNotSet

  const invWhereWorn: uint8 := 0x01
  const invWherePersonal: uint8 := 0x02
  const invWhereBank: uint8 := 0x04
  const invWhereSharedBank: uint8 := 0x08
  const invWhereTrading: uint8 := 0x10
  const invWhereCursor: uint8 := 0x20

  /** `where & flag` is non-zero. */
  predicate HasWhere(where: uint8, flag: uint8)
  {
    AndNonZero(where, flag)
  }
}
