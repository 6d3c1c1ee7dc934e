/**
 * `InventoryLimits`: the per-client sizes of every slot type and the bounds of
 * the equipment and personal bands.  The limits are set once, for the server,
 * for a mob or for a client of a given version, and can only be set again after
 * a reset.
 */
module Limits {
  import opened Constants

  // ---------------------------------------------------------------------------
  // Constants the limits are built from.  They are defined outside Item.h and
  // Item.cpp, so they are left abstract; only their types are known.
  // ---------------------------------------------------------------------------

  const SIZE_UNUSED: int16
  const SIZE_POSSESSIONS_PRE_ROF: int16
  const SIZE_CORPSE_PRE_ROF: int16
  const SIZE_BAZAAR_PRE_ROF: int16
  const SIZE_POSSESSIONS_PRE_SOF: int16
  const SIZE_CORPSE_PRE_SOF: int16
  const SIZE_BANK_PRE_SOF: int16
  const SIZE_POSSESSIONS_PRE_TI: int16
  const SIZE_CORPSE_PRE_TI: int16

  const EQUIPMENT_BITMASK: uint32
  const EQUIPMENT_BITMASK_PRE_SOF: uint32
  const EQUIPMENT_BITMASK_PRE_TI: uint32
  const PERSONAL_END: int16
  const PERSONAL_END_PRE_ROF: int16
  const PERSONAL_BITMASK: uint32
  const PERSONAL_BITMASK_PRE_ROF: uint32

  const MAX_BANDOLIERSLOTS: uint8
  const MAX_POTIONBELTSLOTS: uint8
  const MAX_BAGSLOTS: uint8
  const MAX_BAGSLOTS_PRE_ROF: uint8
  const MAX_AUGMENTS_PRE_ROF: uint8

  /** The client-version codes the limits compare against, oldest first. */
  datatype ClientVersionCodes = ClientVersionCodes(
    unknown: int, v62: int, titanium: int, sof: int, sod: int, underfoot: int, rof: int)

  type OrderedClientVersions = c: ClientVersionCodes
    | c.v62 < c.titanium < c.sof < c.sod < c.underfoot < c.rof
    witness ClientVersionCodes(0, 1, 2, 3, 4, 5, 6)

  const EQClient: OrderedClientVersions

  // ---------------------------------------------------------------------------
  // The limits as a value, and the values each setter produces.
  // ---------------------------------------------------------------------------

  datatype LimitsState = LimitsState(
    sizes: SizeTable,
    equipmentStart: int16, equipmentEnd: int16, equipmentBitmask: uint32,
    personalStart: int16, personalEnd: int16, personalBitmask: uint32,
    bandolierSlotsMax: uint8, potionBeltSlotsMax: uint8, bagSlotsMax: uint8, augmentsMax: uint8,
    limitsSet: bool)

  const ZeroSizes: SizeTable := seq(SlotType_Count as int, _ => 0)

  /** The state after `ResetInventoryLimits`. */
  const ResetLimits: LimitsState := LimitsState(ZeroSizes, 0, 0, 0, 0, 0, 0, 0, 0, 0, 0, false)

  /** `GetSlotTypeSize` and `operator[]`: the stored size of a known slot type, 0 for any other. */
  function SlotTypeSize(s: LimitsState, slotType: int16): int16
  {
    if SLOTTYPE_START <= slotType < SlotType_Count then s.sizes[slotType] else 0
  }

  /** What `SetServerInventoryLimits` stores. */
  const ServerLimits: LimitsState := LimitsState(
    ServerInventoryLimits,
    EQUIPMENT_START, EQUIPMENT_END, EQUIPMENT_BITMASK,
    PERSONAL_START, PERSONAL_END, PERSONAL_BITMASK,
    MAX_BANDOLIERSLOTS, MAX_POTIONBELTSLOTS, MAX_BAGSLOTS, MAX_AUGMENTS,
    true)

  /** The slot types a mob does not use. */
  predicate MobUnused(t: int)
  {
    t == SlotType_Bank as int || t == SlotType_SharedBank as int || t == SlotType_World as int
    || t == SlotType_Limbo as int || t == SlotType_Deleted as int || t == SlotType_RealEstate as int
    || t == SlotType_ViewMODPC as int || t == SlotType_ViewMODBank as int
    || t == SlotType_ViewMODSharedBank as int || t == SlotType_ViewMODLimbo as int
    || t == SlotType_AltStorage as int || t == SlotType_Archived as int || t == SlotType_Mail as int
    || t == SlotType_Krono as int || t == SlotType_Other as int
  }

  /** What `SetMobInventoryLimits` stores: the server limits with the unused types set to `SIZE_UNUSED`. */
  const MobLimits: LimitsState := ServerLimits.(sizes :=
    ServerInventoryLimits[SlotType_Bank := SIZE_UNUSED][SlotType_SharedBank := SIZE_UNUSED]
      [SlotType_World := SIZE_UNUSED][SlotType_Limbo := SIZE_UNUSED][SlotType_Deleted := SIZE_UNUSED]
      [SlotType_RealEstate := SIZE_UNUSED][SlotType_ViewMODPC := SIZE_UNUSED]
      [SlotType_ViewMODBank := SIZE_UNUSED][SlotType_ViewMODSharedBank := SIZE_UNUSED]
      [SlotType_ViewMODLimbo := SIZE_UNUSED][SlotType_AltStorage := SIZE_UNUSED]
      [SlotType_Archived := SIZE_UNUSED][SlotType_Mail := SIZE_UNUSED][SlotType_Krono := SIZE_UNUSED]
      [SlotType_Other := SIZE_UNUSED])

  /** The overrides for clients older than RoF. */
  function PreRoF(s: LimitsState): LimitsState
  {
    s.(sizes := s.sizes[SlotType_Possessions := SIZE_POSSESSIONS_PRE_ROF][SlotType_Corpse := SIZE_CORPSE_PRE_ROF]
                 [SlotType_Bazaar := SIZE_BAZAAR_PRE_ROF],
       personalEnd := PERSONAL_END_PRE_ROF, personalBitmask := PERSONAL_BITMASK_PRE_ROF,
       bagSlotsMax := MAX_BAGSLOTS_PRE_ROF, augmentsMax := MAX_AUGMENTS_PRE_ROF)
  }

  /** The overrides for clients older than SoF. */
  function PreSoF(s: LimitsState): LimitsState
  {
    s.(sizes := s.sizes[SlotType_Possessions := SIZE_POSSESSIONS_PRE_SOF][SlotType_Corpse := SIZE_CORPSE_PRE_SOF]
                 [SlotType_Bank := SIZE_BANK_PRE_SOF],
       equipmentBitmask := EQUIPMENT_BITMASK_PRE_SOF)
  }

  /** The overrides for clients older than Titanium. */
  function PreTitanium(s: LimitsState): LimitsState
  {
    s.(sizes := s.sizes[SlotType_Possessions := SIZE_POSSESSIONS_PRE_TI][SlotType_Corpse := SIZE_CORPSE_PRE_TI],
       equipmentBitmask := EQUIPMENT_BITMASK_PRE_TI)
  }

  /** What `SetClientInventoryLimits` stores: the server limits, then each older-client override in turn. */
  function ClientLimits(version: int): LimitsState
  {
    var s1 := if version < EQClient.rof then PreRoF(ServerLimits) else ServerLimits;
    var s2 := if version < EQClient.sof then PreSoF(s1) else s1;
    if version < EQClient.titanium then PreTitanium(s2) else s2
  }

  /** The slot types some older client overrides. */
  predicate ClientOverridden(t: int)
  {
    t == SlotType_Possessions as int || t == SlotType_Corpse as int
    || t == SlotType_Bazaar as int || t == SlotType_Bank as int
  }

  /** A setter leaves limits that are already set alone; otherwise it stores its limits. */
  function SetOnce(s: LimitsState, target: LimitsState): LimitsState
  {
    if s.limitsSet then s else target
  }

  // ---------------------------------------------------------------------------
  // Properties of the limit values.
  // ---------------------------------------------------------------------------

  /** Every known slot type reads the stored size and any other reads 0; after a reset every type reads 0. */
  lemma SlotTypeSizeMeaning(s: LimitsState, t: int16)
    ensures !(SLOTTYPE_START <= t < SlotType_Count) ==> SlotTypeSize(s, t) == 0
    ensures SLOTTYPE_START <= t < SlotType_Count ==> SlotTypeSize(s, t) == s.sizes[t]
    ensures SlotTypeSize(ResetLimits, t) == 0
    ensures SLOTTYPE_START <= t < SlotType_Count ==> SlotTypeSize(ServerLimits, t) == ServerInventoryLimits[t]
  {
  }

  /** Mob limits: `SIZE_UNUSED` for the types a mob lacks, the server size for the rest, and the server bounds. */
  lemma MobLimitsMeaning(t: int)
    requires 0 <= t < SlotType_Count as int
    ensures MobUnused(t) ==> MobLimits.sizes[t] == SIZE_UNUSED
    ensures !MobUnused(t) ==> MobLimits.sizes[t] == ServerInventoryLimits[t]
    ensures MobLimits.(sizes := ServerInventoryLimits) == ServerLimits
    ensures MobLimits.limitsSet
  {
  }

  /** RoF and newer clients get the server limits unchanged. */
  lemma NewestClientsGetServerLimits(version: int)
    requires version >= EQClient.rof
    ensures ClientLimits(version) == ServerLimits
  {
  }

  /**
   * For an older client the oldest override that applies wins: a pre-Titanium
   * client gets the pre-Titanium possessions, corpse and equipment mask, the
   * pre-SoF bank and the pre-RoF bazaar and personal bounds; each newer band
   * keeps the overrides of its own band and those after it.
   */
  lemma OldestOverrideWins(version: int)
    ensures var c := ClientLimits(version);
      && c.limitsSet
      && c.equipmentStart == EQUIPMENT_START && c.equipmentEnd == EQUIPMENT_END
      && c.personalStart == PERSONAL_START
      && c.bandolierSlotsMax == MAX_BANDOLIERSLOTS && c.potionBeltSlotsMax == MAX_POTIONBELTSLOTS
    ensures version < EQClient.rof ==> (var c := ClientLimits(version);
      && c.sizes[SlotType_Bazaar] == SIZE_BAZAAR_PRE_ROF
      && c.personalEnd == PERSONAL_END_PRE_ROF && c.personalBitmask == PERSONAL_BITMASK_PRE_ROF
      && c.bagSlotsMax == MAX_BAGSLOTS_PRE_ROF && c.augmentsMax == MAX_AUGMENTS_PRE_ROF)
    ensures EQClient.sof <= version < EQClient.rof ==> (var c := ClientLimits(version);
      && c.sizes[SlotType_Possessions] == SIZE_POSSESSIONS_PRE_ROF
      && c.sizes[SlotType_Corpse] == SIZE_CORPSE_PRE_ROF
      && c.sizes[SlotType_Bank] == ServerInventoryLimits[SlotType_Bank]
      && c.equipmentBitmask == EQUIPMENT_BITMASK)
    ensures version < EQClient.sof ==> (var c := ClientLimits(version);
      && c.sizes[SlotType_Bank] == SIZE_BANK_PRE_SOF)
    ensures EQClient.titanium <= version < EQClient.sof ==> (var c := ClientLimits(version);
      && c.sizes[SlotType_Possessions] == SIZE_POSSESSIONS_PRE_SOF
      && c.sizes[SlotType_Corpse] == SIZE_CORPSE_PRE_SOF
      && c.equipmentBitmask == EQUIPMENT_BITMASK_PRE_SOF)
    ensures version < EQClient.titanium ==> (var c := ClientLimits(version);
      && c.sizes[SlotType_Possessions] == SIZE_POSSESSIONS_PRE_TI
      && c.sizes[SlotType_Corpse] == SIZE_CORPSE_PRE_TI
      && c.equipmentBitmask == EQUIPMENT_BITMASK_PRE_TI)
    ensures forall t :: 0 <= t < SlotType_Count as int && !ClientOverridden(t) ==>
      ClientLimits(version).sizes[t] == ServerInventoryLimits[t]
  {
  }

  /** Setting limits twice is the same as setting them once, whichever setters are used. */
  lemma SetOnceIdempotent(s: LimitsState, first: LimitsState, second: LimitsState)
    requires first.limitsSet
    ensures SetOnce(SetOnce(s, first), second) == SetOnce(s, first)
    ensures SetOnce(ResetLimits, first) == first
  {
  }

  // ---------------------------------------------------------------------------
  // The object.
  // ---------------------------------------------------------------------------

  class InventoryLimits {
    /** `m_slottypesize`, one entry per slot type. */
    const slotTypeSize: array<int16>
    var equipmentStart: int16
    var equipmentEnd: int16
    var equipmentBitmask: uint32
    var personalStart: int16
    var personalEnd: int16
    var personalBitmask: uint32
    var bandolierSlotsMax: uint8
    var potionBeltSlotsMax: uint8
    var bagSlotsMax: uint8
    var augmentsMax: uint8
    var limitsSet: bool

    ghost predicate Valid()
      reads this
    {
      slotTypeSize.Length == SlotType_Count as int
    }

    /** The fields as one value. */
    function State(): LimitsState
      requires Valid()
      reads this, slotTypeSize
    {
      LimitsState(slotTypeSize[..],
        equipmentStart, equipmentEnd, equipmentBitmask, personalStart, personalEnd, personalBitmask,
        bandolierSlotsMax, potionBeltSlotsMax, bagSlotsMax, augmentsMax, limitsSet)
    }

    /** A new object starts in the reset state. */
    constructor ()
      ensures Valid() && State() == ResetLimits
      ensures fresh(slotTypeSize)
    {
      slotTypeSize := new int16[SlotType_Count](_ => 0);
      equipmentStart, equipmentEnd, equipmentBitmask := 0, 0, 0;
      personalStart, personalEnd, personalBitmask := 0, 0, 0;
      bandolierSlotsMax, potionBeltSlotsMax, bagSlotsMax, augmentsMax := 0, 0, 0, 0;
      limitsSet := false;
      new;
      assert slotTypeSize[..] == ZeroSizes;
    }

    /** `IsLimitsSet`. */
    function IsLimitsSet(): (r: bool)
      reads this
      ensures r == limitsSet
    {
      limitsSet
    }

    /** `GetSlotTypeSize` on the stored table. */
    function GetSlotTypeSize(slotType: int16): (r: int16)
      requires Valid()
      reads this, slotTypeSize
      ensures r == SlotTypeSize(State(), slotType)
    {
      if SLOTTYPE_START <= slotType < SlotType_Count then slotTypeSize[slotType] else 0
    }

    /** The `memcpy` of the server table into `m_slottypesize`. */
    method CopyServerSizes()
      requires Valid()
      modifies slotTypeSize
      ensures slotTypeSize[..] == ServerInventoryLimits
    {
      for k := 0 to slotTypeSize.Length
        invariant slotTypeSize[..k] == ServerInventoryLimits[..k]
      {
        slotTypeSize[k] := ServerInventoryLimits[k];
        assert slotTypeSize[..k + 1] == slotTypeSize[..k] + [slotTypeSize[k]];
      }
      assert slotTypeSize[..] == slotTypeSize[..slotTypeSize.Length];
    }

    /** `SetServerInventoryLimits`: false and no change when already set; otherwise the server limits. */
    method SetServer() returns (ok: bool)
      requires Valid()
      modifies this, slotTypeSize
      ensures Valid()
      ensures ok == !old(limitsSet)
      ensures State() == SetOnce(old(State()), ServerLimits)
    {
      if limitsSet {
        return false;
      }
      CopyServerSizes();
      equipmentStart := EQUIPMENT_START;
      equipmentEnd := EQUIPMENT_END;
      equipmentBitmask := EQUIPMENT_BITMASK;
      personalStart := PERSONAL_START;
      personalEnd := PERSONAL_END;
      personalBitmask := PERSONAL_BITMASK;
      bandolierSlotsMax := MAX_BANDOLIERSLOTS;
      potionBeltSlotsMax := MAX_POTIONBELTSLOTS;
      bagSlotsMax := MAX_BAGSLOTS;
      augmentsMax := MAX_AUGMENTS;
      limitsSet := true;
      ok := true;
    }

    /** `SetMobInventoryLimits`: false and no change when already set; otherwise the mob limits. */
    method SetMob() returns (ok: bool)
      requires Valid()
      modifies this, slotTypeSize
      ensures Valid()
      ensures ok == !old(limitsSet)
      ensures State() == SetOnce(old(State()), MobLimits)
    {
      if limitsSet {
        return false;
      }
      var _ := SetServer();
      slotTypeSize[SlotType_Bank] := SIZE_UNUSED;
      slotTypeSize[SlotType_SharedBank] := SIZE_UNUSED;
      slotTypeSize[SlotType_World] := SIZE_UNUSED;
      slotTypeSize[SlotType_Limbo] := SIZE_UNUSED;
      slotTypeSize[SlotType_Deleted] := SIZE_UNUSED;
      slotTypeSize[SlotType_RealEstate] := SIZE_UNUSED;
      slotTypeSize[SlotType_ViewMODPC] := SIZE_UNUSED;
      slotTypeSize[SlotType_ViewMODBank] := SIZE_UNUSED;
      slotTypeSize[SlotType_ViewMODSharedBank] := SIZE_UNUSED;
      slotTypeSize[SlotType_ViewMODLimbo] := SIZE_UNUSED;
      slotTypeSize[SlotType_AltStorage] := SIZE_UNUSED;
      slotTypeSize[SlotType_Archived] := SIZE_UNUSED;
      slotTypeSize[SlotType_Mail] := SIZE_UNUSED;
      slotTypeSize[SlotType_Krono] := SIZE_UNUSED;
      slotTypeSize[SlotType_Other] := SIZE_UNUSED;
      limitsSet := true;
      ok := true;
    }

    /** `SetClientInventoryLimits`: false and no change when already set; otherwise the limits for `version`. */
    method SetClient(version: int) returns (ok: bool)
      requires Valid()
      modifies this, slotTypeSize
      ensures Valid()
      ensures ok == !old(limitsSet)
      ensures State() == SetOnce(old(State()), ClientLimits(version))
    {
      if limitsSet {
        return false;
      }
      var _ := SetServer();
      if version < EQClient.rof {
        slotTypeSize[SlotType_Possessions] := SIZE_POSSESSIONS_PRE_ROF;
        slotTypeSize[SlotType_Corpse] := SIZE_CORPSE_PRE_ROF;
        slotTypeSize[SlotType_Bazaar] := SIZE_BAZAAR_PRE_ROF;
        personalEnd := PERSONAL_END_PRE_ROF;
        personalBitmask := PERSONAL_BITMASK_PRE_ROF;
        bagSlotsMax := MAX_BAGSLOTS_PRE_ROF;
        augmentsMax := MAX_AUGMENTS_PRE_ROF;
      }
      assert State() == if version < EQClient.rof then PreRoF(ServerLimits) else ServerLimits;
      ghost var s1 := State();
      if version < EQClient.sof {
        slotTypeSize[SlotType_Possessions] := SIZE_POSSESSIONS_PRE_SOF;
        slotTypeSize[SlotType_Corpse] := SIZE_CORPSE_PRE_SOF;
        slotTypeSize[SlotType_Bank] := SIZE_BANK_PRE_SOF;
        equipmentBitmask := EQUIPMENT_BITMASK_PRE_SOF;
      }
      assert State() == if version < EQClient.sof then PreSoF(s1) else s1;
      if version < EQClient.titanium {
        slotTypeSize[SlotType_Possessions] := SIZE_POSSESSIONS_PRE_TI;
        slotTypeSize[SlotType_Corpse] := SIZE_CORPSE_PRE_TI;
        equipmentBitmask := EQUIPMENT_BITMASK_PRE_TI;
      }
      limitsSet := true;
      ok := true;
    }

    /** `ResetInventoryLimits`: every size and bound 0 and the flag cleared. */
    method Reset()
      requires Valid()
      modifies this, slotTypeSize
      ensures Valid()
      ensures State() == ResetLimits
    {
      for k := 0 to slotTypeSize.Length
        invariant forall j :: 0 <= j < k ==> slotTypeSize[j] == 0
      {
        slotTypeSize[k] := 0;
      }
      assert slotTypeSize[..] == ZeroSizes;
      equipmentStart, equipmentEnd, equipmentBitmask := 0, 0, 0;
      personalStart, personalEnd, personalBitmask := 0, 0, 0;
      bandolierSlotsMax, potionBeltSlotsMax, bagSlotsMax, augmentsMax := 0, 0, 0, 0;
      limitsSet := false;
    }
  }
}
