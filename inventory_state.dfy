/**
 * The contents of an `Inventory` as a value: the five live buckets (worn,
 * personal, bank, shared bank, trade), each a map from slot id to item, and the
 * cursor queue, front first.  The routing of a slot id to its bucket or to the
 * bag that holds it, and every operation that changes the inventory, are
 * functions of this value; the `Inventory` class is proved against them.
 */
module InventoryState {
  import opened Wrappers
  import opened Constants
  import opened ItemData
  import opened SlotCodec
  import I = Items

  type Inst = I.Inst

  datatype Buckets = Buckets(
    worn: map<int16, Inst>,
    inv: map<int16, Inst>,
    bank: map<int16, Inst>,
    shbank: map<int16, Inst>,
    trade: map<int16, Inst>,
    cursor: seq<Inst>)

  const EmptyBuckets: Buckets := Buckets(map[], map[], map[], map[], map[], [])

  /** `_GetItem`: the bucket's entry for the slot, if any. */
  function Lookup(m: map<int16, Inst>, s: int16): Option<Inst>
  {
    if s in m then Some(m[s]) else None
  }

  /** `peek_front` of the cursor. */
  function Front(c: seq<Inst>): Option<Inst>
  {
    if |c| == 0 then None else Some(c[0])
  }

  /** The cursor after `pop`: an empty queue stays empty. */
  function Rest(c: seq<Inst>): seq<Inst>
  {
    if |c| == 0 then [] else c[1..]
  }

  /** The item is present and counts as a container. */
  predicate IsBag(x: Option<Inst>)
  {
    x.Some? && I.IsType(x.value, ItemClassContainer)
  }

  /** The child that the bag slot `s` names inside the bag `bag`, if `bag` is a container. */
  function BagChild(bag: Option<Inst>, s: int16): Option<Inst>
  {
    if IsBag(bag) then I.GetItem(bag.value, CalcBagIdx(s) as int16) else None
  }

  /** The bucket a top-level slot belongs to. */
  datatype Band = WornBand | InvBand | BankBand | SharedBankBand | TradeBand

  function TopBand(s: int16): Band
    requires IsTopLevelSlot(s)
  {
    if IsWornSlot(s) then WornBand
    else if IsPersonalSlot(s) then InvBand
    else if IsBankSlot(s) then BankBand
    else if IsSharedBankSlot(s) then SharedBankBand
    else TradeBand
  }

  function Bucket(b: Buckets, k: Band): map<int16, Inst>
  {
    match k
    case WornBand => b.worn
    case InvBand => b.inv
    case BankBand => b.bank
    case SharedBankBand => b.shbank
    case TradeBand => b.trade
  }

  /** `b` with bucket `k` replaced by `m`; every other bucket and the cursor stay. */
  function WithBucket(b: Buckets, k: Band, m: map<int16, Inst>): (r: Buckets)
    ensures Bucket(r, k) == m && r.cursor == b.cursor
    ensures forall k' | k' != k :: Bucket(r, k') == Bucket(b, k')
  {
    match k
    case WornBand => b.(worn := m)
    case InvBand => b.(inv := m)
    case BankBand => b.(bank := m)
    case SharedBankBand => b.(shbank := m)
    case TradeBand => b.(trade := m)
  }

  /** Every bucket holds only slot ids of its own range. */
  predicate WellFormed(b: Buckets)
  {
    forall k: Band, s: int16 | s in Bucket(b, k) :: IsTopLevelSlot(s) && TopBand(s) == k
  }

  // ---------------------------------------------------------------------------
  // Reading (Item.cpp:188-286).
  // ---------------------------------------------------------------------------

  /** `Inventory::GetItem(slot_id)`: the cursor front, a bucket entry, or a child of the bag that holds the slot. */
  function GetItem(b: Buckets, s: int16): Option<Inst>
  {
    if s == SLOT_CURSOR then Front(b.cursor)
    else if IsTopLevelSlot(s) then TopEntry(b, s)
    else if 3031 <= s <= 3110 then BagChild(Lookup(b.trade, CalcParentSlotId(s)), s)
    else if 2531 <= s <= 2550 then BagChild(Lookup(b.shbank, CalcParentSlotId(s)), s)
    else if 2031 <= s <= 2270 then BagChild(Lookup(b.bank, CalcParentSlotId(s)), s)
    else if 331 <= s <= 340 then BagChild(Front(b.cursor), s)
    else if 251 <= s <= 330 then BagChild(Lookup(b.inv, CalcParentSlotId(s)), s)
    else None
  }

  /** `GetItem(slot_id, bagidx)`. */
  function GetItemInBag(b: Buckets, s: int16, bagidx: uint8): Option<Inst>
  {
    GetItem(b, CalcSlotId(s, bagidx))
  }

  /** The bucket entry of a top-level slot (the five ranges are disjoint, so the order they are tested in does not matter). */
  function TopEntry(b: Buckets, s: int16): Option<Inst>
  {
    if IsTopLevelSlot(s) then Lookup(Bucket(b, TopBand(s)), s) else None
  }

  /** `m` with `x` stored at `s`, or with the entry at `s` removed when `x` is nothing. */
  function Store(m: map<int16, Inst>, s: int16, x: Option<Inst>): map<int16, Inst>
  {
    if x.Some? then m[s := x.value] else m - {s}
  }

  /** Store `x` at a top-level slot, or remove the entry when `x` is nothing. */
  function Assign(b: Buckets, s: int16, x: Option<Inst>): Buckets
  {
    if IsTopLevelSlot(s) then WithBucket(b, TopBand(s), Store(Bucket(b, TopBand(s)), s, x)) else b
  }

  /** Write back a bag that was changed in place: at its top-level slot, or as the cursor front. */
  function SetParent(b: Buckets, p: int16, bag: Inst): Buckets
  {
    if p == SLOT_CURSOR then (if |b.cursor| == 0 then b else b.(cursor := [bag] + b.cursor[1..]))
    else Assign(b, p, Some(bag))
  }

  // ---------------------------------------------------------------------------
  // Changing (Item.cpp:288-324, 576-609, 635-681, 822-885).
  // ---------------------------------------------------------------------------

  /** `PopItem`: take the item out of its slot and hand it over. */
  function PopItem(b: Buckets, s: int16): (Buckets, Option<Inst>)
  {
    if s == SLOT_CURSOR then (b.(cursor := Rest(b.cursor)), Front(b.cursor))
    else if IsTopLevelSlot(s) then (Assign(b, s, None), TopEntry(b, s))
    else
      var p := CalcParentSlotId(s);
      var bag := GetItem(b, p);
      if IsBag(bag) then
        var r := I.PopItem(bag.value, CalcBagIdx(s) as int16);
        (SetParent(b, p, r.0), r.1)
      else (b, None)
  }

  /**
   * `_PutItem`: store `x` without regard for what is there.  Nothing means pop
   * the slot; the cursor drops its front and takes `x` in front; a bag slot
   * needs a container in the parent slot, and otherwise `x` is dropped and the
   * result is `SLOT_INVALID`.
   */
  function PutRaw(b: Buckets, s: int16, x: Option<Inst>): (Buckets, int16)
  {
    if x.None? then (PopItem(b, s).0, s)
    else if s == SLOT_CURSOR then (b.(cursor := [x.value] + Rest(b.cursor)), s)
    else if IsTopLevelSlot(s) then (Assign(b, s, x), s)
    else
      var p := CalcParentSlotId(s);
      var bag := GetItem(b, p);
      if IsBag(bag) then (SetParent(b, p, I.PutItemRaw(bag.value, CalcBagIdx(s) as int16, x.value)), s)
      else (b, SLOT_INVALID)
  }

  /** `x` with `q` charges taken off, the difference narrowed to an `int16` as the field assignment does. */
  function Discharged(x: Inst, q: uint8): (r: Inst)
    ensures r.(charges := x.charges) == x
    ensures -0x8000 <= x.charges - q ==> r.charges == x.charges - q
  {
    x.(charges := ToInt16(x.charges - q))
  }

  /** Whether an item whose charges have run out is destroyed rather than put back. */
  predicate Exhausted(x: Inst)
  {
    x.charges <= 0
    && (I.IsStackable(x)
        || (!I.IsStackable(x) && (DefOrZero(I.GetItemDef(x)).maxCharges == 0 || I.IsExpendable(x))))
  }

  /**
   * `DeleteItem(slot_id, quantity)`: pop the item; with a quantity, take that
   * many charges off and put it back unless it is exhausted.  True when the
   * item is gone.
   */
  function DeleteItem(b: Buckets, s: int16, quantity: uint8): (Buckets, bool)
  {
    var popped := PopItem(b, s);
    if popped.1.Some? && quantity > 0 then
      var x := Discharged(popped.1.value, quantity);
      if Exhausted(x) then (popped.0, true)
      else (PutRaw(popped.0, s, Some(x)).0, false)
    else (popped.0, true)
  }

  /** `PutItem`: clear the slot, then store a copy of `x` unless it has no definition. */
  function PutItem(b: Buckets, s: int16, x: Inst): (Buckets, int16)
  {
    var cleared := DeleteItem(b, s, 0).0;
    if !I.IsPresent(x) then (cleared, s) else PutRaw(cleared, s, Some(I.Clone(x)))
  }

  /** `PushCursor`: a copy of `x` at the back of the cursor. */
  function PushCursor(b: Buckets, x: Inst): (Buckets, int16)
  {
    (b.(cursor := b.cursor + [I.Clone(x)]), SLOT_CURSOR)
  }

  /** The check `SwapItem` applies to an item: none, or one allowed in the placeholder slot. */
  predicate SwapAllowed(x: Option<Inst>, placeholder: SlotStruct)
  {
    x.None? || I.IsSlotAllowed(x.value, placeholder)
  }

  /**
   * `SwapItem`: both items are checked against the same uninitialised
   * placeholder slot structure (a parameter here), then each is put raw into
   * the other's slot.
   */
  function SwapItem(b: Buckets, a: int16, c: int16, placeholder: SlotStruct): (Buckets, bool)
  {
    var ia := GetItem(b, a);
    var ic := GetItem(b, c);
    if ia.Some? && !I.IsSlotAllowed(ia.value, placeholder) then (b, false)
    else if ic.Some? && !I.IsSlotAllowed(ic.value, placeholder) then (b, false)
    else (PutRaw(PutRaw(b, a, ic).0, c, ia).0, true)
  }

  // ---------------------------------------------------------------------------
  // Properties.
  // ---------------------------------------------------------------------------

  /** A top-level slot reads its bucket entry and the cursor reads the front. */
  lemma TopLevelRouting(b: Buckets, s: int16)
    ensures IsTopLevelSlot(s) ==> GetItem(b, s) == TopEntry(b, s)
    ensures GetItem(b, SLOT_CURSOR) == Front(b.cursor)
  {
  }

  /** `Assign` changes the one top-level slot and nothing else. */
  lemma AssignMeaning(b: Buckets, s: int16, x: Option<Inst>, t: int16)
    requires IsTopLevelSlot(s)
    ensures GetItem(Assign(b, s, x), s) == x
    ensures IsTopLevelSlot(t) && t != s ==> GetItem(Assign(b, s, x), t) == GetItem(b, t)
    ensures Assign(b, s, x).cursor == b.cursor
  {
  }

  /** Storing twice at the same top-level slot: the second store wins. */
  lemma AssignTwice(b: Buckets, s: int16, x: Option<Inst>, y: Option<Inst>)
    ensures Assign(Assign(b, s, x), s, y) == Assign(b, s, y)
  {
    if IsTopLevelSlot(s) {
      var k := TopBand(s);
      var m := Bucket(b, k);
      assert Bucket(WithBucket(b, k, Store(m, s, x)), k) == Store(m, s, x);
      assert Store(Store(m, s, x), s, y) == Store(m, s, y);
      WithBucketTwice(b, k, Store(m, s, x), Store(m, s, y));
    }
  }

  /** Replacing the same bucket twice keeps the second replacement. */
  lemma WithBucketTwice(b: Buckets, k: Band, m1: map<int16, Inst>, m2: map<int16, Inst>)
    ensures WithBucket(WithBucket(b, k, m1), k, m2) == WithBucket(b, k, m2)
  {
    match k
    case WornBand =>
    case InvBand =>
    case BankBand =>
    case SharedBankBand =>
    case TradeBand =>
  }

  /** Removing the entry of a slot that holds nothing changes nothing. */
  lemma AssignNoneOnEmpty(b: Buckets, s: int16)
    requires TopEntry(b, s) == None
    ensures Assign(b, s, None) == b
  {
    if IsTopLevelSlot(s) {
      var k := TopBand(s);
      assert Store(Bucket(b, k), s, None) == Bucket(b, k);
      forall k': Band ensures Bucket(Assign(b, s, None), k') == Bucket(b, k') {
      }
    }
  }

  lemma CursorChangeKeepsWellFormed(b: Buckets, c: seq<Inst>)
    requires WellFormed(b)
    ensures WellFormed(b.(cursor := c))
  {
    forall k: Band ensures Bucket(b.(cursor := c), k) == Bucket(b, k) {
    }
  }

  lemma AssignKeepsWellFormed(b: Buckets, s: int16, x: Option<Inst>)
    requires WellFormed(b)
    ensures WellFormed(Assign(b, s, x))
  {
    if IsTopLevelSlot(s) {
      var r := Assign(b, s, x);
      forall k: Band, t: int16 | t in Bucket(r, k) ensures IsTopLevelSlot(t) && TopBand(t) == k {
        if k == TopBand(s) {
          assert t == s || t in Bucket(b, k);
        } else {
          assert t in Bucket(b, k);
        }
      }
    }
  }

  lemma SetParentKeepsWellFormed(b: Buckets, p: int16, bag: Inst)
    requires WellFormed(b)
    ensures WellFormed(SetParent(b, p, bag))
  {
    if p == SLOT_CURSOR {
      if |b.cursor| > 0 {
        CursorChangeKeepsWellFormed(b, [bag] + b.cursor[1..]);
      }
    } else {
      AssignKeepsWellFormed(b, p, Some(bag));
    }
  }

  lemma PopKeepsWellFormed(b: Buckets, s: int16)
    requires WellFormed(b)
    ensures WellFormed(PopItem(b, s).0)
  {
    if s == SLOT_CURSOR {
      CursorChangeKeepsWellFormed(b, Rest(b.cursor));
    } else if IsTopLevelSlot(s) {
      AssignKeepsWellFormed(b, s, None);
    } else {
      var p := CalcParentSlotId(s);
      var bag := GetItem(b, p);
      if IsBag(bag) {
        SetParentKeepsWellFormed(b, p, I.PopItem(bag.value, CalcBagIdx(s) as int16).0);
      }
    }
  }

  lemma PutRawKeepsWellFormed(b: Buckets, s: int16, x: Option<Inst>)
    requires WellFormed(b)
    ensures WellFormed(PutRaw(b, s, x).0)
  {
    if x.None? {
      PopKeepsWellFormed(b, s);
    } else if s == SLOT_CURSOR {
      CursorChangeKeepsWellFormed(b, [x.value] + Rest(b.cursor));
    } else if IsTopLevelSlot(s) {
      AssignKeepsWellFormed(b, s, x);
    } else {
      var p := CalcParentSlotId(s);
      var bag := GetItem(b, p);
      if IsBag(bag) {
        SetParentKeepsWellFormed(b, p, I.PutItemRaw(bag.value, CalcBagIdx(s) as int16, x.value));
      }
    }
  }

  lemma DeleteKeepsWellFormed(b: Buckets, s: int16, q: uint8)
    requires WellFormed(b)
    ensures WellFormed(DeleteItem(b, s, q).0)
  {
    PopKeepsWellFormed(b, s);
    var popped := PopItem(b, s);
    if popped.1.Some? && q > 0 {
      var y := Discharged(popped.1.value, q);
      PutRawKeepsWellFormed(popped.0, s, Some(y));
    }
  }

  lemma PutItemKeepsWellFormed(b: Buckets, s: int16, x: Inst)
    requires WellFormed(b)
    ensures WellFormed(PutItem(b, s, x).0)
  {
    DeleteKeepsWellFormed(b, s, 0);
    PutRawKeepsWellFormed(DeleteItem(b, s, 0).0, s, Some(I.Clone(x)));
  }

  lemma SwapKeepsWellFormed(b: Buckets, a: int16, c: int16, ph: SlotStruct)
    requires WellFormed(b)
    ensures WellFormed(SwapItem(b, a, c, ph).0)
  {
    PutRawKeepsWellFormed(b, a, GetItem(b, c));
    PutRawKeepsWellFormed(PutRaw(b, a, GetItem(b, c)).0, c, GetItem(b, a));
  }

  /** Every change keeps each bucket within its own slot range. */
  lemma ChangesKeepWellFormed(b: Buckets, s: int16, c: int16, x: Inst, q: uint8, ph: SlotStruct)
    requires WellFormed(b)
    ensures WellFormed(PopItem(b, s).0)
    ensures WellFormed(PutRaw(b, s, Some(x)).0)
    ensures WellFormed(DeleteItem(b, s, q).0)
    ensures WellFormed(PutItem(b, s, x).0)
    ensures WellFormed(PushCursor(b, x).0)
    ensures WellFormed(SwapItem(b, s, c, ph).0)
  {
    PopKeepsWellFormed(b, s);
    PutRawKeepsWellFormed(b, s, Some(x));
    DeleteKeepsWellFormed(b, s, q);
    PutItemKeepsWellFormed(b, s, x);
    CursorChangeKeepsWellFormed(b, b.cursor + [I.Clone(x)]);
    SwapKeepsWellFormed(b, s, c, ph);
  }

  /** No bucket of a well-formed inventory holds the invalid slot id. */
  lemma InvalidSlotHoldsNothing(b: Buckets)
    requires WellFormed(b)
    ensures SLOT_INVALID !in b.trade && GetItem(b, SLOT_INVALID) == None
  {
    assert !InKnownBand(SLOT_INVALID) && !IsTopLevelSlot(SLOT_INVALID);
    assert Bucket(b, TradeBand) == b.trade;
  }

  /**
   * Trade-bag ids 3031..3099 always miss: their parent decodes to
   * `SLOT_INVALID`, which no trade slot holds.
   */
  lemma TradeBagSlotsMiss(b: Buckets, s: int16)
    requires WellFormed(b) && 3031 <= s <= 3099
    ensures GetItem(b, s) == None
  {
    InvalidSlotHoldsNothing(b);
  }

  /**
   * `PopItem` hands over exactly what `GetItem` sees, except for ids
   * 3111..3179: `GetItem` reads trade bags only up to 3110, while `PopItem`
   * decodes its parent up to 3179 and reaches a child that `GetItem` misses.
   */
  lemma PopItemAgreesWithGetItem(b: Buckets, s: int16)
    requires WellFormed(b)
    ensures !(3111 <= s <= 3179) ==> PopItem(b, s).1 == GetItem(b, s)
    ensures 3111 <= s <= 3179 ==>
      GetItem(b, s) == None && PopItem(b, s).1 == BagChild(Lookup(b.trade, CalcParentSlotId(s)), s)
  {
    if s != SLOT_CURSOR && !IsTopLevelSlot(s) {
      PopBagAgreesWithGetItem(b, s);
    }
  }

  /** `PopItemAgreesWithGetItem` for the slot ids inside bags. */
  lemma PopBagAgreesWithGetItem(b: Buckets, s: int16)
    requires WellFormed(b) && s != SLOT_CURSOR && !IsTopLevelSlot(s)
    ensures !(3111 <= s <= 3179) ==> PopItem(b, s).1 == GetItem(b, s)
    ensures 3111 <= s <= 3179 ==>
      GetItem(b, s) == None && PopItem(b, s).1 == BagChild(Lookup(b.trade, CalcParentSlotId(s)), s)
  {
    InvalidSlotHoldsNothing(b);
    PopBagSlot(b, s);
    var p := CalcParentSlotId(s);
    if 3100 <= s <= 3179 {
      assert IsTradeSlot(p) && GetItem(b, p) == Lookup(b.trade, p);
    } else if 2531 <= s <= 2550 {
      assert IsSharedBankSlot(p) && GetItem(b, p) == Lookup(b.shbank, p);
    } else if 2031 <= s <= 2270 {
      assert IsBankSlot(p) && GetItem(b, p) == Lookup(b.bank, p);
    } else if 251 <= s <= 330 {
      assert IsPersonalSlot(p) && GetItem(b, p) == Lookup(b.inv, p);
    }
  }

  /** Popping a bag slot hands over the child of the bag in the parent slot. */
  lemma PopBagSlot(b: Buckets, s: int16)
    requires s != SLOT_CURSOR && !IsTopLevelSlot(s)
    ensures PopItem(b, s).1 == BagChild(GetItem(b, CalcParentSlotId(s)), s)
  {
    var bag := GetItem(b, CalcParentSlotId(s));
    if IsBag(bag) {
      I.PopItemMeaning(bag.value, CalcBagIdx(s) as int16, 0);
    }
  }

  /** Popping a top-level slot empties it and leaves every other top-level slot and the cursor alone. */
  lemma PopTopLevel(b: Buckets, s: int16, t: int16)
    requires IsTopLevelSlot(s)
    ensures PopItem(b, s) == (Assign(b, s, None), GetItem(b, s))
    ensures GetItem(PopItem(b, s).0, s) == None
    ensures IsTopLevelSlot(t) && t != s ==> GetItem(PopItem(b, s).0, t) == GetItem(b, t)
  {
  }

  /**
   * `PutItem` into a top-level slot returns the slot; the slot then holds a
   * copy of `x`, or nothing when `x` has no definition, and no other top-level
   * slot nor the cursor changes.
   */
  lemma {:induction false} PutItemTopLevel(b: Buckets, s: int16, x: Inst, t: int16)
    requires IsTopLevelSlot(s)
    ensures PutItem(b, s, x).1 == s
    ensures PutItem(b, s, x).0 == Assign(b, s, if I.IsPresent(x) then Some(I.Clone(x)) else None)
    ensures I.IsPresent(x) ==> GetItem(PutItem(b, s, x).0, s) == Some(I.Clone(x))
    ensures !I.IsPresent(x) ==> GetItem(PutItem(b, s, x).0, s) == None
    ensures IsTopLevelSlot(t) && t != s ==> GetItem(PutItem(b, s, x).0, t) == GetItem(b, t)
    ensures PutItem(b, s, x).0.cursor == b.cursor
  {
    assert DeleteItem(b, s, 0).0 == Assign(b, s, None);
    var y := if I.IsPresent(x) then Some(I.Clone(x)) else None;
    AssignTwice(b, s, None, y);
    AssignMeaning(b, s, y, t);
  }

  /**
   * `_PutItem` into a bag slot whose parent slot holds no container stores
   * nothing and answers `SLOT_INVALID`.
   */
  lemma PutRawWithoutContainer(b: Buckets, s: int16, x: Inst)
    requires s != SLOT_CURSOR && !IsTopLevelSlot(s)
    requires !IsBag(GetItem(b, CalcParentSlotId(s)))
    ensures PutRaw(b, s, Some(x)) == (b, SLOT_INVALID)
  {
  }

  /**
   * The cursor: `GetItem` reads the front, `PushCursor` appends a copy and
   * answers `SLOT_CURSOR`, `PopItem` takes the front, and `_PutItem` replaces
   * the front, so a non-empty cursor keeps its length.
   */
  lemma CursorBehaviour(b: Buckets, x: Inst)
    ensures GetItem(b, SLOT_CURSOR) == Front(b.cursor)
    ensures PushCursor(b, x) == (b.(cursor := b.cursor + [I.Clone(x)]), SLOT_CURSOR)
    ensures PopItem(b, SLOT_CURSOR) == (b.(cursor := Rest(b.cursor)), Front(b.cursor))
    ensures PutRaw(b, SLOT_CURSOR, Some(x)) == (b.(cursor := [x] + Rest(b.cursor)), SLOT_CURSOR)
    ensures |b.cursor| > 0 ==> |PutRaw(b, SLOT_CURSOR, Some(x)).0.cursor| == |b.cursor|
  {
  }

  /**
   * `PutItem` at the cursor deletes the front and then `_PutItem` pops the next
   * one too, so a copy of `x` replaces the first two cursor items.
   */
  lemma PutItemOnCursorDropsTwo(b: Buckets, x: Inst)
    requires I.IsPresent(x)
    ensures PutItem(b, SLOT_CURSOR, x) == (b.(cursor := [I.Clone(x)] + Rest(Rest(b.cursor))), SLOT_CURSOR)
  {
  }

  /**
   * `DeleteItem` on an occupied top-level slot: without a quantity the slot
   * empties and the answer is true; with one, the charges drop by that many
   * (as an `int16`) and an exhausted item is destroyed (true), any other is
   * put back (false).  On an empty slot nothing changes and the answer is true.
   */
  lemma DeleteItemChargeRule(b: Buckets, s: int16, q: uint8)
    requires IsTopLevelSlot(s)
    ensures GetItem(b, s).None? ==> DeleteItem(b, s, q) == (b, true)
    ensures q == 0 ==> DeleteItem(b, s, q) == (Assign(b, s, None), true)
    ensures GetItem(b, s).Some? && q > 0 ==>
      var x := Discharged(GetItem(b, s).value, q);
      DeleteItem(b, s, q) == if Exhausted(x) then (Assign(b, s, None), true) else (Assign(b, s, Some(x)), false)
  {
    if GetItem(b, s).None? {
      AssignNoneOnEmpty(b, s);
    } else {
      var x := Discharged(GetItem(b, s).value, q);
      AssignTwice(b, s, None, Some(x));
    }
  }

  /**
   * `DeleteItem` on index `k` of a bag in a personal, bank or shared-bank
   * slot `p`: the same charge rule as at the top level, applied to the child.
   * An exhausted child leaves the index empty (true), any other goes back to
   * the index with its charges reduced (false).
   */
  lemma {:induction false} DeleteItemChargeRuleInBag(b: Buckets, p: int16, k: uint8, q: uint8)
    requires IsPersonalSlot(p) || IsBankSlot(p) || IsSharedBankSlot(p)
    requires k < MAX_ITEMS_PER_BAG && IsBag(GetItem(b, p))
    ensures var s := CalcSlotId(p, k);
      GetItem(b, s).None? ==> DeleteItem(b, s, q) == (b, true)
    ensures var s := CalcSlotId(p, k);
      GetItem(b, s).Some? && q == 0 ==> DeleteItem(b, s, q).1 && GetItem(DeleteItem(b, s, q).0, s) == None
    ensures var s := CalcSlotId(p, k);
      GetItem(b, s).Some? && q > 0 ==>
      var x := Discharged(GetItem(b, s).value, q);
      DeleteItem(b, s, q).1 == Exhausted(x)
      && GetItem(DeleteItem(b, s, q).0, s) == (if Exhausted(x) then None else Some(x))
  {
    var s := CalcSlotId(p, k);
    if GetItem(b, s).None? || q == 0 {
      ChargeInBagNoCharge(b, p, k, q);
    } else {
      var c := GetItem(b, s).value;
      var x := Discharged(c, q);
      ChargeInBagCharged(b, p, k, q, c, x);
    }
  }

  /** The cases of `DeleteItemChargeRuleInBag` where the index is empty or no quantity is given. */
  lemma {:induction false} ChargeInBagNoCharge(b: Buckets, p: int16, k: uint8, q: uint8)
    requires IsPersonalSlot(p) || IsBankSlot(p) || IsSharedBankSlot(p)
    requires k < MAX_ITEMS_PER_BAG && IsBag(GetItem(b, p))
    requires GetItem(b, CalcSlotId(p, k)).None? || q == 0
    ensures GetItem(b, CalcSlotId(p, k)).None? ==> DeleteItem(b, CalcSlotId(p, k), q) == (b, true)
    ensures DeleteItem(b, CalcSlotId(p, k), q).1 && GetItem(DeleteItem(b, CalcSlotId(p, k), q).0, CalcSlotId(p, k)) == None
  {
    var r := I.PopItem(GetItem(b, p).value, k as int16);
    var s := CalcSlotId(p, k);
    var b1 := Assign(b, p, Some(r.0));
    PopInBag(b, p, k, k, p);
    assert DeleteItem(b, s, q) == (b1, true);
    if r.1.None? {
      AssignSame(b, p);
    }
  }

  /** The case of `DeleteItemChargeRuleInBag` where child `c` loses `q` charges and becomes `x`. */
  lemma {:induction false} ChargeInBagCharged(b: Buckets, p: int16, k: uint8, q: uint8, c: Inst, x: Inst)
    requires IsPersonalSlot(p) || IsBankSlot(p) || IsSharedBankSlot(p)
    requires k < MAX_ITEMS_PER_BAG && IsBag(GetItem(b, p))
    requires GetItem(b, CalcSlotId(p, k)) == Some(c)
    requires q > 0 && x == Discharged(c, q)
    ensures DeleteItem(b, CalcSlotId(p, k), q).1 == Exhausted(x)
    ensures GetItem(DeleteItem(b, CalcSlotId(p, k), q).0, CalcSlotId(p, k)) == if Exhausted(x) then None else Some(x)
  {
    var r := I.PopItem(GetItem(b, p).value, k as int16);
    var s := CalcSlotId(p, k);
    var b1 := Assign(b, p, Some(r.0));
    PopInBag(b, p, k, k, p);
    var popped := PopItem(b, s);
    assert popped == (b1, Some(c));
    if Exhausted(x) {
      assert DeleteItem(b, s, q) == (b1, true);
    } else {
      assert DeleteItem(b, s, q) == (PutRaw(b1, s, Some(x)).0, false);
      PutBackInBag(b1, p, k, x, k, p);
    }
  }

  /** `DeleteItem` on index `k` of such a bag leaves the bag's other indices, every other top-level slot and the cursor as they were. */
  lemma {:induction false} DeleteItemInBagKeepsRest(b: Buckets, p: int16, k: uint8, q: uint8, k2: uint8, t: int16)
    requires IsPersonalSlot(p) || IsBankSlot(p) || IsSharedBankSlot(p)
    requires k < MAX_ITEMS_PER_BAG && IsBag(GetItem(b, p))
    ensures k2 < MAX_ITEMS_PER_BAG && k2 != k ==>
      GetItem(DeleteItem(b, CalcSlotId(p, k), q).0, CalcSlotId(p, k2)) == GetItem(b, CalcSlotId(p, k2))
    ensures IsTopLevelSlot(t) && t != p ==> GetItem(DeleteItem(b, CalcSlotId(p, k), q).0, t) == GetItem(b, t)
    ensures DeleteItem(b, CalcSlotId(p, k), q).0.cursor == b.cursor
  {
    var r := I.PopItem(GetItem(b, p).value, k as int16);
    if r.1.Some? && q > 0 && !Exhausted(Discharged(r.1.value, q)) {
      KeepsRestPutBack(b, p, k, q, k2, t, r.1.value, Discharged(r.1.value, q));
    } else {
      KeepsRestNoPutBack(b, p, k, q, k2, t);
    }
  }

  /** The case of `DeleteItemInBagKeepsRest` where the child `c` survives as `x` and goes back. */
  lemma {:induction false} KeepsRestPutBack(b: Buckets, p: int16, k: uint8, q: uint8, k2: uint8, t: int16, c: Inst, x: Inst)
    requires IsPersonalSlot(p) || IsBankSlot(p) || IsSharedBankSlot(p)
    requires k < MAX_ITEMS_PER_BAG && IsBag(GetItem(b, p))
    requires I.PopItem(GetItem(b, p).value, k as int16).1 == Some(c)
    requires q > 0 && x == Discharged(c, q) && !Exhausted(x)
    ensures k2 < MAX_ITEMS_PER_BAG && k2 != k ==>
      GetItem(DeleteItem(b, CalcSlotId(p, k), q).0, CalcSlotId(p, k2)) == GetItem(b, CalcSlotId(p, k2))
    ensures IsTopLevelSlot(t) && t != p ==> GetItem(DeleteItem(b, CalcSlotId(p, k), q).0, t) == GetItem(b, t)
    ensures DeleteItem(b, CalcSlotId(p, k), q).0.cursor == b.cursor
  {
    var r := I.PopItem(GetItem(b, p).value, k as int16);
    var b1 := Assign(b, p, Some(r.0));
    PopInBag(b, p, k, k2, t);
    var sl := CalcSlotId(p, k);
    var popped := PopItem(b, sl);
    assert popped == (b1, Some(c));
    var y := Discharged(popped.1.value, q);
    assert y == x;
    assert DeleteItem(b, sl, q) == (PutRaw(popped.0, sl, Some(y)).0, false);
    assert DeleteItem(b, CalcSlotId(p, k), q).0 == PutRaw(b1, CalcSlotId(p, k), Some(x)).0;
    PutBackInBag(b1, p, k, x, k2, t);
  }

  /** The case of `DeleteItemInBagKeepsRest` where nothing goes back. */
  lemma {:induction false} KeepsRestNoPutBack(b: Buckets, p: int16, k: uint8, q: uint8, k2: uint8, t: int16)
    requires IsPersonalSlot(p) || IsBankSlot(p) || IsSharedBankSlot(p)
    requires k < MAX_ITEMS_PER_BAG && IsBag(GetItem(b, p))
    requires var r := I.PopItem(GetItem(b, p).value, k as int16);
      !(r.1.Some? && q > 0 && !Exhausted(Discharged(r.1.value, q)))
    ensures k2 < MAX_ITEMS_PER_BAG && k2 != k ==>
      GetItem(DeleteItem(b, CalcSlotId(p, k), q).0, CalcSlotId(p, k2)) == GetItem(b, CalcSlotId(p, k2))
    ensures IsTopLevelSlot(t) && t != p ==> GetItem(DeleteItem(b, CalcSlotId(p, k), q).0, t) == GetItem(b, t)
    ensures DeleteItem(b, CalcSlotId(p, k), q).0.cursor == b.cursor
  {
    var r := I.PopItem(GetItem(b, p).value, k as int16);
    PopInBag(b, p, k, k2, t);
    assert DeleteItem(b, CalcSlotId(p, k), q).0 == Assign(b, p, Some(r.0));
  }

  /** Popping index `k` of a bag in a personal, bank or shared-bank slot writes the bag back without that child. */
  lemma {:induction false} PopInBag(b: Buckets, p: int16, k: uint8, k2: uint8, t: int16)
    requires IsPersonalSlot(p) || IsBankSlot(p) || IsSharedBankSlot(p)
    requires k < MAX_ITEMS_PER_BAG && IsBag(GetItem(b, p))
    ensures var r := I.PopItem(GetItem(b, p).value, k as int16);
      && PopItem(b, CalcSlotId(p, k)) == (Assign(b, p, Some(r.0)), r.1)
      && r.1 == GetItem(b, CalcSlotId(p, k))
      && (r.1.None? ==> r.0 == GetItem(b, p).value)
      && (r.1.Some? ==> !I.IsOOR(k as int16))
      && IsBag(Some(r.0))
      && GetItem(Assign(b, p, Some(r.0)), CalcSlotId(p, k)) == None
      && (k2 < MAX_ITEMS_PER_BAG && k2 != k ==>
          GetItem(Assign(b, p, Some(r.0)), CalcSlotId(p, k2)) == GetItem(b, CalcSlotId(p, k2)))
      && (IsTopLevelSlot(t) && t != p ==> GetItem(Assign(b, p, Some(r.0)), t) == GetItem(b, t))
      && Assign(b, p, Some(r.0)).cursor == b.cursor
  {
    var bag := GetItem(b, p).value;
    var r := I.PopItem(bag, k as int16);
    BagSlotReadsParent(b, p, k);
    I.PopItemMeaning(bag, k as int16, k2 as int16);
    assert r.0.(contents := bag.contents) == bag;
    var b1 := Assign(b, p, Some(r.0));
    AssignMeaning(b, p, Some(r.0), t);
    BagSlotReadsParent(b1, p, k);
    if k2 < MAX_ITEMS_PER_BAG {
      BagSlotReadsParent(b, p, k2);
      BagSlotReadsParent(b1, p, k2);
    }
  }

  /** Putting `x` back at index `k` of a bag in a personal, bank or shared-bank slot stores it there and nowhere else. */
  lemma {:induction false} PutBackInBag(b: Buckets, p: int16, k: uint8, x: Inst, k2: uint8, t: int16)
    requires IsPersonalSlot(p) || IsBankSlot(p) || IsSharedBankSlot(p)
    requires k < MAX_ITEMS_PER_BAG && IsBag(GetItem(b, p)) && !I.IsOOR(k as int16)
    ensures var b' := PutRaw(b, CalcSlotId(p, k), Some(x)).0;
      && GetItem(b', CalcSlotId(p, k)) == Some(x)
      && (k2 < MAX_ITEMS_PER_BAG && k2 != k ==> GetItem(b', CalcSlotId(p, k2)) == GetItem(b, CalcSlotId(p, k2)))
      && (IsTopLevelSlot(t) && t != p ==> GetItem(b', t) == GetItem(b, t))
      && b'.cursor == b.cursor
  {
    var bag := GetItem(b, p).value;
    var bag2 := I.PutItemRaw(bag, k as int16, x);
    BagSlotReadsParent(b, p, k);
    assert PutRaw(b, CalcSlotId(p, k), Some(x)).0 == Assign(b, p, Some(bag2));
    assert bag2.(contents := bag.contents) == bag;
    var b' := Assign(b, p, Some(bag2));
    AssignMeaning(b, p, Some(bag2), t);
    BagSlotReadsParent(b', p, k);
    if k2 < MAX_ITEMS_PER_BAG {
      BagSlotReadsParent(b, p, k2);
      BagSlotReadsParent(b', p, k2);
    }
  }

  /** A bag index of a personal, bank or shared-bank slot reads the child of the bag held there. */
  lemma {:induction false} BagSlotReadsParent(b: Buckets, p: int16, k: uint8)
    requires IsPersonalSlot(p) || IsBankSlot(p) || IsSharedBankSlot(p)
    requires k < MAX_ITEMS_PER_BAG
    ensures GetItem(b, CalcSlotId(p, k)) == BagChild(GetItem(b, p), CalcSlotId(p, k))
    ensures CalcSlotId(p, k) != SLOT_CURSOR && !IsTopLevelSlot(CalcSlotId(p, k))
    ensures CalcParentSlotId(CalcSlotId(p, k)) == p && CalcBagIdx(CalcSlotId(p, k)) == k
  {
    BagSlotRoundTrip(p, k);
  }

  /** Storing back what a top-level slot already holds changes nothing. */
  lemma {:induction false} AssignSame(b: Buckets, p: int16)
    requires IsTopLevelSlot(p) && GetItem(b, p).Some?
    ensures Assign(b, p, GetItem(b, p)) == b
  {
    var k := TopBand(p);
    assert Store(Bucket(b, k), p, GetItem(b, p)) == Bucket(b, k);
    match k
    case WornBand =>
    case InvBand =>
    case BankBand =>
    case SharedBankBand =>
    case TradeBand =>
  }

  /**
   * Taking charges off the cursor front: a front that survives is put back
   * through `_PutItem`, which pops again, so the second cursor item is lost.
   */
  lemma PartialDeleteOnCursorDropsSecond(b: Buckets, q: uint8)
    requires |b.cursor| >= 2 && q > 0
    requires !Exhausted(Discharged(b.cursor[0], q))
    ensures DeleteItem(b, SLOT_CURSOR, q) ==
      (b.(cursor := [Discharged(b.cursor[0], q)] + b.cursor[2..]), false)
  {
    assert Rest(Rest(b.cursor)) == b.cursor[2..];
  }

  /** Whether `SwapItem` goes ahead depends only on the two items and the placeholder, never on the slots. */
  lemma SwapCheckIgnoresSlots(b: Buckets, a: int16, c: int16, ph: SlotStruct)
    ensures SwapItem(b, a, c, ph).1 == (SwapAllowed(GetItem(b, a), ph) && SwapAllowed(GetItem(b, c), ph))
    ensures !SwapItem(b, a, c, ph).1 ==> SwapItem(b, a, c, ph).0 == b
  {
  }

  /** Swapping two different top-level slots exchanges their items and leaves every other top-level slot alone. */
  lemma {:induction false} SwapTopLevel(b: Buckets, a: int16, c: int16, ph: SlotStruct, t: int16)
    requires IsTopLevelSlot(a) && IsTopLevelSlot(c) && a != c
    requires SwapAllowed(GetItem(b, a), ph) && SwapAllowed(GetItem(b, c), ph)
    ensures SwapItem(b, a, c, ph).1
    ensures GetItem(SwapItem(b, a, c, ph).0, a) == GetItem(b, c)
    ensures GetItem(SwapItem(b, a, c, ph).0, c) == GetItem(b, a)
    ensures IsTopLevelSlot(t) && t != a && t != c ==> GetItem(SwapItem(b, a, c, ph).0, t) == GetItem(b, t)
  {
    var ia := GetItem(b, a);
    var ic := GetItem(b, c);
    var b1 := PutRaw(b, a, ic).0;
    assert b1 == Assign(b, a, ic);
    AssignMeaning(b, a, ic, c);
    AssignMeaning(b, a, ic, t);
    var b2 := PutRaw(b1, c, ia).0;
    assert b2 == Assign(b1, c, ia);
    AssignMeaning(b1, c, ia, a);
    AssignMeaning(b1, c, ia, t);
  }

  /**
   * `SwapItem` answers true even when a put fails: swapping an item with the
   * invalid slot empties its slot and drops the item.
   */
  lemma SwapWithInvalidSlotLosesItem(b: Buckets, a: int16, ph: SlotStruct)
    requires IsTopLevelSlot(a) && GetItem(b, a).Some? && I.IsSlotAllowed(GetItem(b, a).value, ph)
    ensures SwapItem(b, a, SLOT_INVALID, ph) == (Assign(b, a, None), true)
  {
    assert !InKnownBand(SLOT_INVALID);
    assert GetItem(b, SLOT_INVALID) == None;
    assert CalcParentSlotId(SLOT_INVALID) == SLOT_INVALID;
    assert GetItem(Assign(b, a, None), SLOT_INVALID) == None;
  }
}
