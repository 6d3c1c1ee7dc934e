/**
 * `EvoItemInst`, the evolving or scaling item: an `ItemInst` with experience, an
 * evolve level (-1 for a scaling item), an activation flag, an optional scaled
 * copy of its definition and optional evolve information.
 */
module EvoItems {
  import opened Wrappers
  import opened Constants
  import opened ItemData
  import opened Items

  /** The state of a freshly made evolving item: no experience, level 0, inactive, nothing scaled. */
  const FreshEvo: EvoState := Evo(0, 0, false, None, None)

  /** `EvoItemInst(item, charges)` with the serial number it draws. */
  function NewEvoInst(item: Option<ItemDef>, charges: int16, serial: int32): (i: Inst)
    ensures i.(evo := Plain) == NewInst(item, charges, serial)
    ensures !IsScaling(i) && !IsEvolving(i) && i.evo.Evo? && i.evo.exp == 0 && !i.evo.activated
    ensures GetItemDef(i) == item
  {
    NewInst(item, charges, serial).(evo := FreshEvo)
  }

  /**
   * `EvoItemInst(const ItemInst&)`: the base fields and a deep copy of the
   * children, with the evolving state of a fresh item.
   */
  function EvoFromBase(i: Inst): (r: Inst)
    ensures r.(contents := i.contents, evo := i.evo) == i
    ensures r.contents.Keys == i.contents.Keys
    ensures GetItemDef(r) == i.item && !IsScaling(r) && !IsEvolving(r)
  {
    Clone(i).(evo := FreshEvo)
  }

  /** `IsScaling`: level -1.  A base instance is never scaling. */
  predicate IsScaling(i: Inst)
  {
    i.evo.Evo? && i.evo.evolveLvl == -1
  }

  /** `IsEvolving`: level 1 or more.  A base instance is never evolving. */
  predicate IsEvolving(i: Inst)
  {
    i.evo.Evo? && i.evo.evolveLvl >= 1
  }

  /** An item is never both scaling and evolving, and at level 0 it is neither. */
  lemma ScalingAndEvolvingExclusive(i: Inst)
    ensures !(IsScaling(i) && IsEvolving(i))
    ensures i.evo.Plain? || i.evo.evolveLvl == 0 ==> !IsScaling(i) && !IsEvolving(i)
  {
  }

  /** `AddExp`: adds to the experience with `uint32` wrap-around. */
  function AddExp(e: EvoState, x: uint32): (r: EvoState)
    requires e.Evo?
    ensures r.Evo? && r.(exp := e.exp) == e
    ensures r.exp == (e.exp + x) % 0x1_0000_0000
    ensures e.exp + x >= 0x1_0000_0000 ==> r.exp < e.exp
  {
    e.(exp := ToUint32(e.exp + x))
  }

  /** `EvolveOnAllKills`: only with evolve information that asks for it. */
  predicate EvolveOnAllKills(e: EvoState)
  {
    e.Evo? && e.evolveInfo.Some? && e.evolveInfo.value.allKills
  }

  /** `GetMaxEvolveLvl`: the `uint8` cap read back as an `int8` (so caps above 127 come out negative); 0 without evolve information. */
  function GetMaxEvolveLvl(e: EvoState): (r: int8)
    ensures e.Plain? || e.evolveInfo.None? ==> r == 0
    ensures e.Evo? && e.evolveInfo.Some? ==>
      r == (var m := e.evolveInfo.value.maxLvl; if m < 0x80 then m else m - 0x100)
  {
    if e.Evo? && e.evolveInfo.Some? then ToInt8(e.evolveInfo.value.maxLvl) else 0
  }

  /** The index `GetKillsNeeded` reads is inside the nine-entry table. */
  predicate KillsIndexDefined(e: EvoState, level: uint8)
  {
    e.Plain? || e.evolveInfo.None? || level == e.evolveInfo.value.maxLvl || 1 <= level <= 9
  }

  /**
   * `GetKillsNeeded`: the kills listed for `level`, or `0xFFFFFFFF` without evolve
   * information, at the cap, or when the listed count is 0.
   */
  function GetKillsNeeded(e: EvoState, level: uint8): (r: uint32)
    requires KillsIndexDefined(e, level)
    ensures r != 0
    ensures e.Plain? || e.evolveInfo.None? || level == e.evolveInfo.value.maxLvl ==> r == UINT32_MAX
    ensures e.Evo? && e.evolveInfo.Some? && level != e.evolveInfo.value.maxLvl ==>
      var listed := e.evolveInfo.value.lvlKills[level - 1];
      r == if listed == 0 then UINT32_MAX else listed
  {
    var kills: uint32 :=
      if e.Evo? && e.evolveInfo.Some? && level != e.evolveInfo.value.maxLvl
      then e.evolveInfo.value.lvlKills[level - 1]
      else UINT32_MAX;
    if kills == 0 then UINT32_MAX else kills
  }

  /** The evolve information is never copied, so a copy of an evolving item needs no kills and never evolves on all kills. */
  lemma CopiesForgetEvolveInfo(i: Inst, level: uint8)
    requires i.evo.Evo?
    ensures !EvolveOnAllKills(Clone(i).evo)
    ensures GetMaxEvolveLvl(Clone(i).evo) == 0
    ensures GetKillsNeeded(Clone(i).evo, level) == UINT32_MAX
    ensures Clone(i).evo.(evolveInfo := i.evo.evolveInfo) == i.evo
  {
  }

  /**
   * `ScaleItem`: a copy of the unscaled definition with the scaled damage and
   * no charm file.  The scaled damage is computed in floating point from the
   * experience and is a parameter here.
   */
  function ScaleItem(i: Inst, scaledDamage: uint32): (r: Inst)
    requires i.evo.Evo?
    ensures r.evo.Evo? && r.evo.scaledItem.Some?
    ensures r.evo.scaledItem.value.charmFileID == 0
    ensures r.evo.scaledItem.value.(damage := DefOrZero(i.item).damage, charmFileID := DefOrZero(i.item).charmFileID)
      == DefOrZero(i.item)
    ensures r.(evo := i.evo) == i && r.evo.(scaledItem := i.evo.scaledItem) == i.evo
  {
    i.(evo := i.evo.(scaledItem := Some(DefOrZero(i.item).(damage := scaledDamage, charmFileID := 0))))
  }

  /** `Initialize`: an item with a charm file becomes a scaling item with a scaled definition. */
  function Initialize(i: Inst, scaledDamage: uint32): (r: Inst)
    requires i.evo.Evo?
  {
    if i.item.None? then i
    else if i.item.value.charmFileID != 0 then ScaleItem(i.(evo := i.evo.(evolveLvl := -1)), scaledDamage)
    else i
  }

  /** After `Initialize` a charm-file item is scaling and shows the scaled definition; any other item is unchanged. */
  lemma InitializeMeaning(i: Inst, scaledDamage: uint32)
    requires i.evo.Evo?
    ensures i.item.None? || i.item.value.charmFileID == 0 ==> Initialize(i, scaledDamage) == i
    ensures i.item.Some? && i.item.value.charmFileID != 0 ==>
      var r := Initialize(i, scaledDamage);
      IsScaling(r) && GetItemDef(r).Some? && GetItemDef(r).value.charmFileID == 0
      && GetItemDef(r).value.damage == scaledDamage
      && GetItemDef(r).value.id == i.item.value.id && r.item == i.item
  {
  }

  /** `GetItem` prefers the scaled definition; `GetUnscaledItem` is the definition itself. */
  lemma ScaledDefinitionPreferred(i: Inst)
    ensures i.evo.Evo? && i.evo.scaledItem.Some? ==> GetItemDef(i) == i.evo.scaledItem
    ensures i.evo.Plain? || i.evo.scaledItem.None? ==> GetItemDef(i) == i.item
  {
  }
}
