/**
 * The inventory searches `HasItem`, `HasItemByUse` and `HasItemByLoreGroup`.
 * Each bucket is scanned in ascending slot order; every item is looked at,
 * then its augments, then (for a container) its children in ascending index
 * order.  The item count kept while scanning a bucket is a `uint8` and starts
 * again at 0 in every bucket.
 */
module InventorySearch {
  import opened Constants
  import opened ItemData
  import opened SlotCodec
  import KeyOrder
  import I = Items
  import opened InventoryState

  /** What is searched for: an item id, an item type ("use"), or a lore group. */
  datatype Query =
    | ById(id: uint32, quantity: uint8)
    | ByUse(use: uint8, quantity: uint8)
    | ByLoreGroup(loreGroup: uint32)

  /** The state of a scan: a slot was answered, or the count found so far. */
  datatype Step = Found(slot: int16) | Continue(count: uint8)

  /** An item counts as its charges, or as 1 when it has none. */
  function ChargeCount(x: Inst): int
  {
    if x.charges <= 0 then 1 else x.charges as int
  }

  /** The item test of each search; a lore-group match inside a bag also needs a common item. */
  predicate Matches(q: Query, x: Inst, top: bool)
  {
    match q
    case ById(id, _) => I.GetID(x) == id
    case ByUse(use, _) => I.IsType(x, ItemClassCommon) && DefOrZero(I.GetItemDef(x)).itemType == use
    case ByLoreGroup(lg) =>
      (top || I.IsType(x, ItemClassCommon)) && ToUint32(DefOrZero(I.GetItemDef(x)).loreGroup) == lg
  }

  /** The augment test at augment slot `t`; the search by use has none. */
  predicate AugmentHitAt(q: Query, x: Inst, t: int)
    requires 0 <= t < MAX_AUGMENT_SLOTS as int
  {
    match q
    case ById(id, quantity) => I.GetAugmentItemID(x, t as int16) == id && quantity <= 1
    case ByUse(_, _) => false
    case ByLoreGroup(lg) =>
      var a := I.GetAugment(x, t as int16);
      a.Some? && ToUint32(DefOrZero(I.GetItemDef(a.value)).loreGroup) == lg
  }

  predicate AugmentHit(q: Query, x: Inst)
  {
    exists t | 0 <= t < MAX_AUGMENT_SLOTS as int :: AugmentHitAt(q, x, t)
  }

  /**
   * One item met during a scan at slot `ret` with the count `n` so far: a
   * match adds its charge count (wrapping as a `uint8`) and answers its slot
   * once the quantity is reached; a lore-group match answers at once; a
   * matching augment answers `SLOT_AUGMENT`.
   */
  function Probe(q: Query, ret: int16, x: Inst, top: bool, n: uint8): Step
  {
    if Matches(q, x, top) then
      if q.ByLoreGroup? then Found(ret)
      else
        var n' := ToUint8(n + ChargeCount(x));
        if n' >= q.quantity then Found(ret)
        else if AugmentHit(q, x) then Found(SLOT_AUGMENT)
        else Continue(n')
    else if AugmentHit(q, x) then Found(SLOT_AUGMENT)
    else Continue(n)
  }

  /** The children of a bag in iteration order. */
  function ChildKeys(x: Inst): (r: seq<int>)
    ensures forall k | k in r :: 0 <= k < 0x100 && k as uint8 in x.contents
  {
    KeyOrder.Uint8Keys(x.contents.Keys)
  }

  /** The slots of a bucket in iteration order. */
  function BucketKeys(m: map<int16, Inst>): (r: seq<int>)
    ensures forall k | k in r :: -0x8000 <= k < 0x8000 && k as int16 in m
  {
    KeyOrder.Int16Keys(m.Keys)
  }

  /** The `j`-th child of a bag in iteration order. */
  function ChildAt(x: Inst, j: int): Inst
    requires 0 <= j < |ChildKeys(x)|
  {
    assert ChildKeys(x)[j] in ChildKeys(x);
    x.contents[ChildKeys(x)[j] as uint8]
  }

  /** The children of bag `x` (at slot `ret`) from the `j`-th on. */
  function ChildScan(q: Query, ret: int16, x: Inst, j: int, n: uint8): Step
    requires 0 <= j <= |ChildKeys(x)|
    decreases |ChildKeys(x)| - j
  {
    if j == |ChildKeys(x)| then Continue(n)
    else
      assert ChildKeys(x)[j] in ChildKeys(x);
      var c := ChildKeys(x)[j] as uint8;
      match Probe(q, CalcSlotId(ret, c), ChildAt(x, j), false, n)
      case Found(r) => Found(r)
      case Continue(n') => ChildScan(q, ret, x, j + 1, n')
  }

  /** One bucket entry or cursor item: the item, then its children if it is a container. */
  function EntryScan(q: Query, ret: int16, x: Inst, n: uint8): Step
  {
    match Probe(q, ret, x, true, n)
    case Found(r) => Found(r)
    case Continue(n') => if I.IsType(x, ItemClassContainer) then ChildScan(q, ret, x, 0, n') else Continue(n')
  }

  /** The entries of a bucket from the `j`-th on. */
  function MapScan(q: Query, m: map<int16, Inst>, j: int, n: uint8): Step
    requires 0 <= j <= |BucketKeys(m)|
    decreases |BucketKeys(m)| - j
  {
    if j == |BucketKeys(m)| then Continue(n)
    else
      assert BucketKeys(m)[j] in BucketKeys(m);
      var k := BucketKeys(m)[j] as int16;
      match EntryScan(q, k, m[k], n)
      case Found(r) => Found(r)
      case Continue(n') => MapScan(q, m, j + 1, n')
  }

  /** The cursor items from the `j`-th on; each answers `SLOT_CURSOR`, its children their cursor-bag slots. */
  function QueueScan(q: Query, c: seq<Inst>, j: int, n: uint8): Step
    requires 0 <= j <= |c|
    decreases |c| - j
  {
    if j == |c| then Continue(n)
    else
      match EntryScan(q, SLOT_CURSOR, c[j], n)
      case Found(r) => Found(r)
      case Continue(n') => QueueScan(q, c, j + 1, n')
  }

  function Answer(st: Step): int16
  {
    if st.Found? then st.slot else SLOT_INVALID
  }

  /** `_HasItem*` on a map bucket. */
  function SearchBucket(q: Query, m: map<int16, Inst>): int16
  {
    Answer(MapScan(q, m, 0, 0))
  }

  /** `_HasItem*` on the cursor queue. */
  function SearchCursor(q: Query, c: seq<Inst>): int16
  {
    Answer(QueueScan(q, c, 0, 0))
  }

  /** The buckets a `where` mask selects. */
  datatype Selection = Selection(worn: bool, personal: bool, bank: bool, sharedBank: bool, trading: bool, cursor: bool)

  function Selected(where: uint8): Selection
  {
    Selection(HasWhere(where, invWhereWorn), HasWhere(where, invWherePersonal), HasWhere(where, invWhereBank),
      HasWhere(where, invWhereSharedBank), HasWhere(where, invWhereTrading), HasWhere(where, invWhereCursor))
  }

  /** The `i`-th bucket in search order (worn, personal, bank, shared bank, trade, cursor) and whether it is selected. */
  predicate IsSelected(w: Selection, i: int)
  {
    if i == 0 then w.worn
    else if i == 1 then w.personal
    else if i == 2 then w.bank
    else if i == 3 then w.sharedBank
    else if i == 4 then w.trading
    else w.cursor
  }

  function BucketAnswer(b: Buckets, q: Query, i: int): int16
  {
    if i == 0 then SearchBucket(q, b.worn)
    else if i == 1 then SearchBucket(q, b.inv)
    else if i == 2 then SearchBucket(q, b.bank)
    else if i == 3 then SearchBucket(q, b.shbank)
    else if i == 4 then SearchBucket(q, b.trade)
    else SearchCursor(q, b.cursor)
  }

  /** The buckets from the `i`-th on: the first selected one whose answer is not `SLOT_INVALID`. */
  function SearchFrom(b: Buckets, q: Query, w: Selection, i: nat): int16
    decreases 6 - i
  {
    if i >= 6 then SLOT_INVALID
    else if IsSelected(w, i) && BucketAnswer(b, q, i) != SLOT_INVALID then BucketAnswer(b, q, i)
    else SearchFrom(b, q, w, i + 1)
  }

  /**
   * `HasItem*`: the buckets that `where` selects, in the order worn, personal,
   * bank, shared bank, trade, cursor; the first answer other than
   * `SLOT_INVALID` wins.
   */
  function Search(b: Buckets, q: Query, where: uint8): int16
  {
    SearchFrom(b, q, Selected(where), 0)
  }

  // ---------------------------------------------------------------------------
  // The searches as loops (Item.cpp:331-487, 888-1175).
  // ---------------------------------------------------------------------------

  /** The augment loop. */
  method FindAugment(q: Query, x: Inst) returns (hit: bool)
    ensures hit == AugmentHit(q, x)
  {
    var t := 0;
    while t < MAX_AUGMENT_SLOTS as int
      invariant 0 <= t <= MAX_AUGMENT_SLOTS as int
      invariant forall u | 0 <= u < t :: !AugmentHitAt(q, x, u)
    {
      if AugmentHitAt(q, x, t) {
        return true;
      }
      t := t + 1;
    }
    return false;
  }

  /** Look at one item: the item test, then (except by use) its augments. */
  method ProbeItem(q: Query, ret: int16, x: Inst, top: bool, n: uint8) returns (st: Step)
    ensures st == Probe(q, ret, x, top, n)
  {
    var count := n;
    if Matches(q, x, top) {
      if q.ByLoreGroup? {
        return Found(ret);
      }
      count := ToUint8(count + ChargeCount(x));
      if count >= q.quantity {
        return Found(ret);
      }
    }
    if !q.ByUse? {
      var hit := FindAugment(q, x);
      if hit {
        return Found(SLOT_AUGMENT);
      }
    }
    return Continue(count);
  }

  /** The loop over the children of a container, in ascending index order. */
  method ScanChildren(q: Query, ret: int16, x: Inst, n: uint8) returns (st: Step)
    ensures st == ChildScan(q, ret, x, 0, n)
  {
    var keys := ChildKeys(x);
    var count := n;
    var j := 0;
    while j < |keys|
      invariant 0 <= j <= |keys|
      invariant ChildScan(q, ret, x, 0, n) == ChildScan(q, ret, x, j, count)
      decreases |keys| - j
    {
      assert keys[j] in keys;
      var c := keys[j] as uint8;
      var s := ProbeItem(q, CalcSlotId(ret, c), x.contents[c], false, count);
      if s.Found? {
        return s;
      }
      count := s.count;
      j := j + 1;
    }
    return Continue(count);
  }

  /** Look at one entry and, for a container, at each of its children. */
  method ScanEntry(q: Query, ret: int16, x: Inst, n: uint8) returns (st: Step)
    ensures st == EntryScan(q, ret, x, n)
  {
    st := ProbeItem(q, ret, x, true, n);
    if st.Found? || !I.IsType(x, ItemClassContainer) {
      return;
    }
    st := ScanChildren(q, ret, x, st.count);
  }

  /** `_HasItem*` over a map bucket. */
  method ScanBucket(q: Query, m: map<int16, Inst>) returns (slot: int16)
    ensures slot == SearchBucket(q, m)
  {
    var keys := BucketKeys(m);
    var count: uint8 := 0;
    var j := 0;
    while j < |keys|
      invariant 0 <= j <= |keys|
      invariant MapScan(q, m, 0, 0) == MapScan(q, m, j, count)
      decreases |keys| - j
    {
      assert keys[j] in keys;
      var k := keys[j] as int16;
      var s := ScanEntry(q, k, m[k], count);
      if s.Found? {
        return s.slot;
      }
      count := s.count;
      j := j + 1;
    }
    return SLOT_INVALID;
  }

  /** `_HasItem*` over the cursor queue. */
  method ScanCursor(q: Query, c: seq<Inst>) returns (slot: int16)
    ensures slot == SearchCursor(q, c)
  {
    var count: uint8 := 0;
    var j := 0;
    while j < |c|
      invariant 0 <= j <= |c|
      invariant QueueScan(q, c, 0, 0) == QueueScan(q, c, j, count)
      decreases |c| - j
    {
      var s := ScanEntry(q, SLOT_CURSOR, c[j], count);
      if s.Found? {
        return s.slot;
      }
      count := s.count;
      j := j + 1;
    }
    return SLOT_INVALID;
  }

  /** One bucket of the search: scanned only when selected. */
  method SearchOne(b: Buckets, q: Query, w: Selection, i: int) returns (slot: int16)
    requires 0 <= i < 6
    ensures slot == if IsSelected(w, i) then BucketAnswer(b, q, i) else SLOT_INVALID
  {
    slot := SLOT_INVALID;
    if IsSelected(w, i) {
      if i == 5 {
        slot := ScanCursor(q, b.cursor);
      } else {
        var m := if i == 0 then b.worn else if i == 1 then b.inv else if i == 2 then b.bank
          else if i == 3 then b.shbank else b.trade;
        slot := ScanBucket(q, m);
      }
    }
  }

  /** `HasItem`, `HasItemByUse` and `HasItemByLoreGroup`: the buckets `where` selects, in order. */
  method SearchAll(b: Buckets, q: Query, where: uint8) returns (slot: int16)
    ensures slot == Search(b, q, where)
  {
    slot := SearchSelected(b, q, Selected(where));
  }

  /** The chain of bucket searches, stopping at the first answer other than `SLOT_INVALID`. */
  method SearchSelected(b: Buckets, q: Query, w: Selection) returns (slot: int16)
    ensures slot == SearchFrom(b, q, w, 0)
  {
    var i := 0;
    while i < 6
      invariant 0 <= i <= 6
      invariant SearchFrom(b, q, w, 0) == SearchFrom(b, q, w, i)
    {
      slot := SearchOne(b, q, w, i);
      if slot != SLOT_INVALID {
        return;
      }
      SearchFromSkips(b, q, w, i);
      i := i + 1;
    }
    return SLOT_INVALID;
  }

  /** A selected bucket that answers `SLOT_INVALID`, or one not selected, passes the search on. */
  lemma SearchFromSkips(b: Buckets, q: Query, w: Selection, i: nat)
    requires i < 6
    requires !IsSelected(w, i) || BucketAnswer(b, q, i) == SLOT_INVALID
    ensures SearchFrom(b, q, w, i) == SearchFrom(b, q, w, i + 1)
  {
  }

  // ---------------------------------------------------------------------------
  // Properties.
  // ---------------------------------------------------------------------------

  /** A search that answers at the first hit: by lore group, or for a quantity of 0. */
  predicate Immediate(q: Query)
  {
    q.ByLoreGroup? || q.quantity == 0
  }

  /** The item, or one of its augments, passes the test. */
  predicate ProbeHit(q: Query, x: Inst, top: bool)
  {
    Matches(q, x, top) || AugmentHit(q, x)
  }

  /** Some child of bag `x` from the `j`-th on passes the test. */
  predicate ChildHitFrom(q: Query, x: Inst, j: int)
  {
    exists i | j <= i < |ChildKeys(x)| && 0 <= i :: ProbeHit(q, ChildAt(x, i), false)
  }

  /** The entry, or (for a container) one of its children, passes the test. */
  predicate EntryHit(q: Query, x: Inst)
  {
    ProbeHit(q, x, true) || (I.IsType(x, ItemClassContainer) && ChildHitFrom(q, x, 0))
  }

  /** The `i`-th entry of a bucket in iteration order. */
  function EntryAt(m: map<int16, Inst>, i: int): Inst
    requires 0 <= i < |BucketKeys(m)|
  {
    assert BucketKeys(m)[i] in BucketKeys(m);
    m[BucketKeys(m)[i] as int16]
  }

  /** Slot `s` is the entry's own slot with a matching item, or a bag slot of it with a matching child. */
  predicate SlotHolds(q: Query, ret: int16, x: Inst, s: int16)
  {
    (s == ret && Matches(q, x, true))
    || (I.IsType(x, ItemClassContainer) && ChildSlotHolds(q, ret, x, s, 0))
  }

  predicate ChildSlotHolds(q: Query, ret: int16, x: Inst, s: int16, j: int)
  {
    exists i | j <= i < |ChildKeys(x)| && 0 <= i ::
      s == ChildSlotAt(ret, x, i) && Matches(q, ChildAt(x, i), false)
  }

  /** The slot id of the `i`-th child of bag `x` at slot `ret`. */
  function ChildSlotAt(ret: int16, x: Inst, i: int): int16
    requires 0 <= i < |ChildKeys(x)|
  {
    assert ChildKeys(x)[i] in ChildKeys(x);
    CalcSlotId(ret, ChildKeys(x)[i] as uint8)
  }

  /** The slot of the `i`-th entry of a bucket. */
  function SlotAt(m: map<int16, Inst>, i: int): int16
    requires 0 <= i < |BucketKeys(m)|
  {
    assert BucketKeys(m)[i] in BucketKeys(m);
    BucketKeys(m)[i] as int16
  }

  /** What one probe can answer, and when it answers at all. */
  lemma ProbeMeaning(q: Query, ret: int16, x: Inst, top: bool, n: uint8)
    ensures Probe(q, ret, x, top, n).Found? ==>
      (Probe(q, ret, x, top, n).slot == ret && Matches(q, x, top))
      || (Probe(q, ret, x, top, n).slot == SLOT_AUGMENT && AugmentHit(q, x))
    ensures Immediate(q) ==> (Probe(q, ret, x, top, n).Found? <==> ProbeHit(q, x, top))
    ensures !ProbeHit(q, x, top) ==> Probe(q, ret, x, top, n) == Continue(n)
  {
  }

  lemma {:induction false} ChildScanSound(q: Query, ret: int16, x: Inst, j: int, n: uint8)
    requires 0 <= j <= |ChildKeys(x)|
    ensures ChildScan(q, ret, x, j, n).Found? ==>
      ChildScan(q, ret, x, j, n).slot == SLOT_AUGMENT || ChildSlotHolds(q, ret, x, ChildScan(q, ret, x, j, n).slot, j)
    ensures Immediate(q) ==> (ChildScan(q, ret, x, j, n).Found? <==> ChildHitFrom(q, x, j))
  {
    ChildScanHolds(q, ret, x, j, n);
    if Immediate(q) {
      ChildScanImmediate(q, ret, x, j, n);
    }
  }

  /** The first half of `ChildScanSound`: what a found slot holds. */
  lemma {:induction false} ChildScanHolds(q: Query, ret: int16, x: Inst, j: int, n: uint8)
    requires 0 <= j <= |ChildKeys(x)|
    ensures ChildScan(q, ret, x, j, n).Found? ==>
      ChildScan(q, ret, x, j, n).slot == SLOT_AUGMENT || ChildSlotHolds(q, ret, x, ChildScan(q, ret, x, j, n).slot, j)
    decreases |ChildKeys(x)| - j
  {
    if j < |ChildKeys(x)| {
      ChildScanStep(q, ret, x, j, n);
      var p := Probe(q, ChildSlotAt(ret, x, j), ChildAt(x, j), false, n);
      ProbeMeaning(q, ChildSlotAt(ret, x, j), ChildAt(x, j), false, n);
      if p.Continue? {
        ChildScanHolds(q, ret, x, j + 1, p.count);
      }
    }
  }

  /** The second half of `ChildScanSound`: an immediate search finds something iff some child passes. */
  lemma {:induction false} ChildScanImmediate(q: Query, ret: int16, x: Inst, j: int, n: uint8)
    requires 0 <= j <= |ChildKeys(x)| && Immediate(q)
    ensures ChildScan(q, ret, x, j, n).Found? <==> ChildHitFrom(q, x, j)
    decreases |ChildKeys(x)| - j
  {
    if j < |ChildKeys(x)| {
      ChildScanStep(q, ret, x, j, n);
      var p := Probe(q, ChildSlotAt(ret, x, j), ChildAt(x, j), false, n);
      ProbeMeaning(q, ChildSlotAt(ret, x, j), ChildAt(x, j), false, n);
      if p.Continue? {
        ChildScanImmediate(q, ret, x, j + 1, p.count);
        if ChildHitFrom(q, x, j) {
          var i :| j <= i < |ChildKeys(x)| && 0 <= i && ProbeHit(q, ChildAt(x, i), false);
          assert i != j;
        }
      }
    }
  }

  lemma EntryScanSound(q: Query, ret: int16, x: Inst, n: uint8)
    ensures EntryScan(q, ret, x, n).Found? ==>
      EntryScan(q, ret, x, n).slot == SLOT_AUGMENT || SlotHolds(q, ret, x, EntryScan(q, ret, x, n).slot)
    ensures Immediate(q) ==> (EntryScan(q, ret, x, n).Found? <==> EntryHit(q, x))
  {
    ProbeMeaning(q, ret, x, true, n);
    match Probe(q, ret, x, true, n)
    case Found(r) =>
    case Continue(n') =>
      ChildScanSound(q, ret, x, 0, n');
  }

  /**
   * A bucket search answers only the slot of a matching item or bag child, or
   * `SLOT_AUGMENT`; a search that answers at the first hit answers exactly
   * when some entry, child or augment passes the test.
   */
  lemma {:induction false} MapScanSound(q: Query, m: map<int16, Inst>, j: int, n: uint8)
    requires 0 <= j <= |BucketKeys(m)|
    ensures MapScan(q, m, j, n).Found? ==>
      var s := MapScan(q, m, j, n).slot;
      s == SLOT_AUGMENT || exists i | j <= i < |BucketKeys(m)| && 0 <= i ::
        SlotHolds(q, SlotAt(m, i), EntryAt(m, i), s)
    ensures Immediate(q) ==>
      (MapScan(q, m, j, n).Found? <==> exists i | j <= i < |BucketKeys(m)| && 0 <= i :: EntryHit(q, EntryAt(m, i)))
    decreases |BucketKeys(m)| - j
  {
    var keys := BucketKeys(m);
    if j < |keys| {
      assert keys[j] in keys;
      var k := keys[j] as int16;
      assert EntryAt(m, j) == m[k] && SlotAt(m, j) == k;
      EntryScanSound(q, k, m[k], n);
      var e := EntryScan(q, k, m[k], n);
      if e.Found? {
        assert MapScan(q, m, j, n) == e;
      } else {
        var rest := MapScan(q, m, j + 1, e.count);
        assert MapScan(q, m, j, n) == rest;
        MapScanSound(q, m, j + 1, e.count);
        if rest.Found? && rest.slot != SLOT_AUGMENT {
          var i :| j + 1 <= i < |keys| && SlotHolds(q, SlotAt(m, i), EntryAt(m, i), rest.slot);
          assert j <= i;
        }
        if Immediate(q) && EntryHit(q, EntryAt(m, j)) {
          assert false;
        }
      }
    }
  }

  /** The same for the cursor queue, whose items answer `SLOT_CURSOR` and whose bag children answer cursor-bag slots. */
  lemma {:induction false} QueueScanSound(q: Query, c: seq<Inst>, j: int, n: uint8)
    requires 0 <= j <= |c|
    ensures QueueScan(q, c, j, n).Found? ==>
      var s := QueueScan(q, c, j, n).slot;
      s == SLOT_AUGMENT || exists i | j <= i < |c| :: SlotHolds(q, SLOT_CURSOR, c[i], s)
    ensures Immediate(q) ==> (QueueScan(q, c, j, n).Found? <==> exists i | j <= i < |c| :: EntryHit(q, c[i]))
    decreases |c| - j
  {
    if j < |c| {
      EntryScanSound(q, SLOT_CURSOR, c[j], n);
      match EntryScan(q, SLOT_CURSOR, c[j], n)
      case Found(r) =>
      case Continue(n') =>
        QueueScanSound(q, c, j + 1, n');
        if exists i | j <= i < |c| :: EntryHit(q, c[i]) {
          var i :| j <= i < |c| && EntryHit(q, c[i]);
          assert i != j || !Immediate(q);
        }
    }
  }

  // ---------------------------------------------------------------------------
  // The quantity a search by id or by use reaches (Item.cpp:326-330, 936-1033).
  // ---------------------------------------------------------------------------

  /** What an item met during the scan adds to the count, before the `uint8` wrap. */
  function MatchCount(q: Query, x: Inst, top: bool): nat
  {
    if Matches(q, x, top) then ChargeCount(x) else 0
  }

  /** The unwrapped count of the children of bag `x` from the `j`-th on. */
  function ChildTotal(q: Query, x: Inst, j: int): nat
    requires 0 <= j <= |ChildKeys(x)|
    decreases |ChildKeys(x)| - j
  {
    if j == |ChildKeys(x)| then 0 else MatchCount(q, ChildAt(x, j), false) + ChildTotal(q, x, j + 1)
  }

  /** The unwrapped count of one bucket entry or cursor item and, for a container, its children. */
  function EntryTotal(q: Query, x: Inst): nat
  {
    MatchCount(q, x, true) + if I.IsType(x, ItemClassContainer) then ChildTotal(q, x, 0) else 0
  }

  /** The unwrapped count of the entries of a bucket from the `j`-th on. */
  function MapTotal(q: Query, m: map<int16, Inst>, j: int): nat
    requires 0 <= j <= |BucketKeys(m)|
    decreases |BucketKeys(m)| - j
  {
    if j == |BucketKeys(m)| then 0 else EntryTotal(q, EntryAt(m, j)) + MapTotal(q, m, j + 1)
  }

  /** The unwrapped count of the cursor items from the `j`-th on. */
  function QueueTotal(q: Query, c: seq<Inst>, j: int): nat
    requires 0 <= j <= |c|
    decreases |c| - j
  {
    if j == |c| then 0 else EntryTotal(q, c[j]) + QueueTotal(q, c, j + 1)
  }

  /** Some child of bag `x` from the `j`-th on has a matching augment. */
  predicate ChildAugmentFrom(q: Query, x: Inst, j: int)
  {
    exists i | j <= i < |ChildKeys(x)| && 0 <= i :: AugmentHit(q, ChildAt(x, i))
  }

  /** The entry, or (for a container) one of its children, has a matching augment. */
  predicate EntryAugment(q: Query, x: Inst)
  {
    AugmentHit(q, x) || (I.IsType(x, ItemClassContainer) && ChildAugmentFrom(q, x, 0))
  }

  /** Only a search by id for at most one item looks at augments for a quantity. */
  lemma {:induction false} AugmentHitQuery(q: Query, x: Inst)
    requires !q.ByLoreGroup?
    ensures AugmentHit(q, x) ==> q.ById? && q.quantity <= 1
  {
  }

  /**
   * A scan that started from count `n` went on past items whose unwrapped
   * counts sum to `total` and stands at `count`: the sum wrapped to a
   * `uint8`, and either the start unchanged or below the quantity.
   */
  predicate Carried(n: int, total: int, count: int, quantity: int)
  {
    count == (n + total) % 0x100 && count <= n + total && (count == n || count < quantity)
  }

  /** A scan over nothing carries the count unchanged. */
  lemma {:induction false} CarriedNothing(n: int, quantity: int)
    requires 0 <= n < 0x100
    ensures Carried(n, 0, n, quantity)
  {
  }

  /** Two stretches of a scan that go on, one after the other, carry the count over both sums. */
  lemma {:induction false} CountsCompose(n: int, a: int, n1: int, r: int, fin: int, quantity: int)
    requires 0 <= n && 0 <= a && 0 <= r
    requires Carried(n, a, n1, quantity) && Carried(n1, r, fin, quantity)
    ensures Carried(n, a + r, fin, quantity)
  {
    assert ((n + a) % 0x100 + r) % 0x100 == (n + a + r) % 0x100;
  }

  /**
   * One probe: an answered slot other than an augment's means the count with
   * this item reached the quantity; a scan that goes on carries the count
   * plus this item's, wrapped, and either unchanged or still below the quantity.
   */
  lemma {:induction false} ProbeCount(q: Query, ret: int16, x: Inst, top: bool, n: uint8)
    requires !q.ByLoreGroup?
    ensures var st := Probe(q, ret, x, top, n);
      st.Found? ==> n as int + MatchCount(q, x, top) >= q.quantity as int || (st.slot == SLOT_AUGMENT && AugmentHit(q, x))
    ensures var st := Probe(q, ret, x, top, n);
      st.Continue? ==> Carried(n as int, MatchCount(q, x, top), st.count as int, q.quantity as int)
  {
  }

  /** A scan of the children of bag `x` from the `j`-th on that answers a slot other than an augment's reached the quantity. */
  lemma {:induction false} ChildScanCount(q: Query, ret: int16, x: Inst, j: int, n: uint8)
    requires !q.ByLoreGroup? && 0 <= j <= |ChildKeys(x)|
    ensures var st := ChildScan(q, ret, x, j, n);
      st.Found? ==> n as int + ChildTotal(q, x, j) >= q.quantity as int || (st.slot == SLOT_AUGMENT && ChildAugmentFrom(q, x, j))
    decreases |ChildKeys(x)| - j
  {
    if j < |ChildKeys(x)| {
      var y := ChildAt(x, j);
      ChildScanStep(q, ret, x, j, n);
      ProbeCount(q, ChildSlotAt(ret, x, j), y, false, n);
      var p := Probe(q, ChildSlotAt(ret, x, j), y, false, n);
      if p.Continue? {
        var rest := ChildScan(q, ret, x, j + 1, p.count);
        ChildScanCount(q, ret, x, j + 1, p.count);
        if rest.Found? && rest.slot == SLOT_AUGMENT && ChildAugmentFrom(q, x, j + 1) {
          var i :| j + 1 <= i < |ChildKeys(x)| && AugmentHit(q, ChildAt(x, i));
          assert j <= i;
        }
      }
    }
  }

  /** A scan of the children of bag `x` from the `j`-th on that answers nothing carries the count over their sum. */
  lemma {:induction false} ChildScanCarries(q: Query, ret: int16, x: Inst, j: int, n: uint8)
    requires !q.ByLoreGroup? && 0 <= j <= |ChildKeys(x)|
    ensures var st := ChildScan(q, ret, x, j, n);
      st.Continue? ==> Carried(n as int, ChildTotal(q, x, j), st.count as int, q.quantity as int)
    decreases |ChildKeys(x)| - j
  {
    if j < |ChildKeys(x)| {
      var y := ChildAt(x, j);
      ChildScanStep(q, ret, x, j, n);
      ProbeCount(q, ChildSlotAt(ret, x, j), y, false, n);
      var p := Probe(q, ChildSlotAt(ret, x, j), y, false, n);
      if p.Continue? {
        var rest := ChildScan(q, ret, x, j + 1, p.count);
        ChildScanCarries(q, ret, x, j + 1, p.count);
        if rest.Continue? {
          CountsCompose(n as int, MatchCount(q, y, false), p.count as int, ChildTotal(q, x, j + 1), rest.count as int, q.quantity as int);
        }
      }
    }
  }

  /** One step of the child scan: the `j`-th child is probed at its own slot id, and the scan goes on unless it answers. */
  lemma {:induction false} ChildScanStep(q: Query, ret: int16, x: Inst, j: int, n: uint8)
    requires 0 <= j < |ChildKeys(x)|
    ensures var p := Probe(q, ChildSlotAt(ret, x, j), ChildAt(x, j), false, n);
      ChildScan(q, ret, x, j, n) == if p.Found? then p else ChildScan(q, ret, x, j + 1, p.count)
    ensures ChildTotal(q, x, j) == MatchCount(q, ChildAt(x, j), false) + ChildTotal(q, x, j + 1)
  {
    assert ChildKeys(x)[j] in ChildKeys(x);
  }

  /** The same for one item and its children. */
  lemma {:induction false} EntryScanCount(q: Query, ret: int16, x: Inst, n: uint8)
    requires !q.ByLoreGroup?
    ensures var st := EntryScan(q, ret, x, n);
      st.Found? ==> n as int + EntryTotal(q, x) >= q.quantity as int || (st.slot == SLOT_AUGMENT && EntryAugment(q, x))
  {
    ProbeCount(q, ret, x, true, n);
    var p := Probe(q, ret, x, true, n);
    if p.Continue? && I.IsType(x, ItemClassContainer) {
      ChildScanCount(q, ret, x, 0, p.count);
    }
  }

  lemma {:induction false} EntryScanCarries(q: Query, ret: int16, x: Inst, n: uint8)
    requires !q.ByLoreGroup?
    ensures var st := EntryScan(q, ret, x, n);
      st.Continue? ==> Carried(n as int, EntryTotal(q, x), st.count as int, q.quantity as int)
  {
    ProbeCount(q, ret, x, true, n);
    var p := Probe(q, ret, x, true, n);
    if p.Continue? && I.IsType(x, ItemClassContainer) {
      ChildScanCarries(q, ret, x, 0, p.count);
      var rest := ChildScan(q, ret, x, 0, p.count);
      if rest.Continue? {
        CountsCompose(n as int, MatchCount(q, x, true), p.count as int, ChildTotal(q, x, 0), rest.count as int, q.quantity as int);
      }
    }
  }

  /**
   * A bucket scan by id or by use from count `n` that answers a slot other
   * than `SLOT_AUGMENT`: `n` plus the unwrapped count of the matching entries
   * and bag children reached the quantity.  `SLOT_AUGMENT` may instead mean a
   * matching augment.
   */
  lemma {:induction false} MapScanCount(q: Query, m: map<int16, Inst>, j: int, n: uint8)
    requires !q.ByLoreGroup? && 0 <= j <= |BucketKeys(m)|
    ensures var st := MapScan(q, m, j, n);
      st.Found? ==>
        (n as int + MapTotal(q, m, j) >= q.quantity as int
         || (st.slot == SLOT_AUGMENT && exists i | j <= i < |BucketKeys(m)| && 0 <= i :: EntryAugment(q, EntryAt(m, i))))
    decreases |BucketKeys(m)| - j
  {
    if j < |BucketKeys(m)| {
      var x := EntryAt(m, j);
      MapScanStep(q, m, j, n);
      EntryScanCount(q, SlotAt(m, j), x, n);
      EntryScanCarries(q, SlotAt(m, j), x, n);
      var e := EntryScan(q, SlotAt(m, j), x, n);
      if e.Continue? {
        var rest := MapScan(q, m, j + 1, e.count);
        MapScanCount(q, m, j + 1, e.count);
        if rest.Found? && rest.slot == SLOT_AUGMENT && exists i | j + 1 <= i < |BucketKeys(m)| && 0 <= i :: EntryAugment(q, EntryAt(m, i)) {
          var i :| j + 1 <= i < |BucketKeys(m)| && EntryAugment(q, EntryAt(m, i));
          assert j <= i;
        }
      }
    }
  }

  /**
   * A bucket scan that answers nothing ends at `n` plus the unwrapped count
   * wrapped to a `uint8`, which is then `n` or below the quantity.
   */
  lemma {:induction false} MapScanCarries(q: Query, m: map<int16, Inst>, j: int, n: uint8)
    requires !q.ByLoreGroup? && 0 <= j <= |BucketKeys(m)|
    ensures var st := MapScan(q, m, j, n);
      st.Continue? ==> Carried(n as int, MapTotal(q, m, j), st.count as int, q.quantity as int)
    decreases |BucketKeys(m)| - j
  {
    if j < |BucketKeys(m)| {
      var x := EntryAt(m, j);
      MapScanStep(q, m, j, n);
      EntryScanCarries(q, SlotAt(m, j), x, n);
      var e := EntryScan(q, SlotAt(m, j), x, n);
      if e.Continue? {
        var rest := MapScan(q, m, j + 1, e.count);
        MapScanCarries(q, m, j + 1, e.count);
        if rest.Continue? {
          CountsCompose(n as int, EntryTotal(q, x), e.count as int, MapTotal(q, m, j + 1), rest.count as int, q.quantity as int);
        }
      }
    } else {
      CarriedNothing(n as int, q.quantity as int);
    }
  }

  /** One step of the bucket scan: the `j`-th entry is scanned at its slot, and the scan goes on unless it answers. */
  lemma {:induction false} MapScanStep(q: Query, m: map<int16, Inst>, j: int, n: uint8)
    requires 0 <= j < |BucketKeys(m)|
    ensures var e := EntryScan(q, SlotAt(m, j), EntryAt(m, j), n);
      MapScan(q, m, j, n) == if e.Found? then e else MapScan(q, m, j + 1, e.count)
    ensures MapTotal(q, m, j) == EntryTotal(q, EntryAt(m, j)) + MapTotal(q, m, j + 1)
  {
    assert BucketKeys(m)[j] in BucketKeys(m);
  }

  /** The same for the cursor queue. */
  lemma {:induction false} QueueScanCount(q: Query, c: seq<Inst>, j: int, n: uint8)
    requires !q.ByLoreGroup? && 0 <= j <= |c|
    ensures var st := QueueScan(q, c, j, n);
      st.Found? ==>
        (n as int + QueueTotal(q, c, j) >= q.quantity as int
         || (st.slot == SLOT_AUGMENT && exists i | j <= i < |c| :: EntryAugment(q, c[i])))
    decreases |c| - j
  {
    if j < |c| {
      EntryScanCount(q, SLOT_CURSOR, c[j], n);
      EntryScanCarries(q, SLOT_CURSOR, c[j], n);
      var e := EntryScan(q, SLOT_CURSOR, c[j], n);
      if e.Continue? {
        var rest := QueueScan(q, c, j + 1, e.count);
        assert QueueScan(q, c, j, n) == rest;
        QueueScanCount(q, c, j + 1, e.count);
        if rest.Found? && rest.slot == SLOT_AUGMENT && exists i | j + 1 <= i < |c| :: EntryAugment(q, c[i]) {
          var i :| j + 1 <= i < |c| && EntryAugment(q, c[i]);
          assert j <= i;
        }
      }
    }
  }

  lemma {:induction false} QueueScanCarries(q: Query, c: seq<Inst>, j: int, n: uint8)
    requires !q.ByLoreGroup? && 0 <= j <= |c|
    ensures var st := QueueScan(q, c, j, n);
      st.Continue? ==> Carried(n as int, QueueTotal(q, c, j), st.count as int, q.quantity as int)
    decreases |c| - j
  {
    if j < |c| {
      EntryScanCarries(q, SLOT_CURSOR, c[j], n);
      var e := EntryScan(q, SLOT_CURSOR, c[j], n);
      if e.Continue? {
        var rest := QueueScan(q, c, j + 1, e.count);
        assert QueueScan(q, c, j, n) == rest;
        QueueScanCarries(q, c, j + 1, e.count);
        if rest.Continue? {
          CountsCompose(n as int, EntryTotal(q, c[j]), e.count as int, QueueTotal(q, c, j + 1), rest.count as int, q.quantity as int);
        }
      }
    }
  }

  /** No augment can answer a search by use, nor a search by id for more than one item. */
  lemma {:induction false} NoAugmentAnswer(q: Query)
    requires !q.ByLoreGroup? && !(q.ById? && q.quantity <= 1)
    ensures forall x :: !AugmentHit(q, x)
  {
  }

  /**
   * `HasItem` / `HasItemByUse` on one bucket: a slot other than `SLOT_AUGMENT`
   * is answered only when the matching entries and bag children hold at
   * least the quantity (unwrapped); `SLOT_AUGMENT` may instead answer a
   * matching augment, and only for a search by id for at most one item.
   * Conversely, when that count reaches a quantity of at least 1 and stays
   * below 256, the bucket answers.
   */
  lemma {:induction false} BucketQuantity(q: Query, m: map<int16, Inst>)
    requires !q.ByLoreGroup?
    ensures SearchBucket(q, m) != SLOT_INVALID && SearchBucket(q, m) != SLOT_AUGMENT ==>
      MapTotal(q, m, 0) >= q.quantity as int
    ensures MapScan(q, m, 0, 0) == Found(SLOT_AUGMENT) && MapTotal(q, m, 0) < q.quantity as int ==>
      q.ById? && q.quantity <= 1 && exists i | 0 <= i < |BucketKeys(m)| :: EntryAugment(q, EntryAt(m, i))
    ensures 1 <= q.quantity as int <= MapTotal(q, m, 0) < 0x100 ==> MapScan(q, m, 0, 0).Found?
  {
    MapScanCount(q, m, 0, 0);
    MapScanCarries(q, m, 0, 0);
    if !(q.ById? && q.quantity <= 1) {
      NoAugmentAnswer(q);
    }
  }

  /** The same for the cursor queue. */
  lemma {:induction false} CursorQuantity(q: Query, c: seq<Inst>)
    requires !q.ByLoreGroup?
    ensures SearchCursor(q, c) != SLOT_INVALID && SearchCursor(q, c) != SLOT_AUGMENT ==>
      QueueTotal(q, c, 0) >= q.quantity as int
    ensures QueueScan(q, c, 0, 0) == Found(SLOT_AUGMENT) && QueueTotal(q, c, 0) < q.quantity as int ==>
      q.ById? && q.quantity <= 1 && exists i | 0 <= i < |c| :: EntryAugment(q, c[i])
    ensures 1 <= q.quantity as int <= QueueTotal(q, c, 0) < 0x100 ==> QueueScan(q, c, 0, 0).Found?
  {
    QueueScanCount(q, c, 0, 0);
    QueueScanCarries(q, c, 0, 0);
    if !(q.ById? && q.quantity <= 1) {
      NoAugmentAnswer(q);
    }
  }

  /**
   * The search answers the answer of the first selected bucket that answers
   * something other than `SLOT_INVALID`, and `SLOT_INVALID` when there is none.
   */
  lemma SearchFromFirst(b: Buckets, q: Query, w: Selection, i: nat)
    requires i <= 6
    ensures SearchFrom(b, q, w, i) != SLOT_INVALID ==>
      exists k | i <= k < 6 :: IsSelected(w, k) && BucketAnswer(b, q, k) == SearchFrom(b, q, w, i)
        && forall l | i <= l < k :: !IsSelected(w, l) || BucketAnswer(b, q, l) == SLOT_INVALID
    ensures (forall l | i <= l < 6 :: !IsSelected(w, l) || BucketAnswer(b, q, l) == SLOT_INVALID) ==>
      SearchFrom(b, q, w, i) == SLOT_INVALID
  {
    if SearchFrom(b, q, w, i) != SLOT_INVALID {
      var k := SearchFromAt(b, q, w, i);
    }
    SearchFromNone(b, q, w, i);
  }

  /** A search that answers something names the bucket that gave it, with every selected bucket before it silent. */
  lemma {:induction false} SearchFromAt(b: Buckets, q: Query, w: Selection, i: nat) returns (k: nat)
    requires i <= 6 && SearchFrom(b, q, w, i) != SLOT_INVALID
    ensures i <= k < 6 && IsSelected(w, k) && BucketAnswer(b, q, k) == SearchFrom(b, q, w, i)
    ensures forall l | i <= l < k :: !IsSelected(w, l) || BucketAnswer(b, q, l) == SLOT_INVALID
    decreases 6 - i
  {
    if IsSelected(w, i) && BucketAnswer(b, q, i) != SLOT_INVALID {
      k := i;
    } else {
      k := SearchFromAt(b, q, w, i + 1);
      SearchFromSkips(b, q, w, i);
      assert forall l | i + 1 <= l < k :: !IsSelected(w, l) || BucketAnswer(b, q, l) == SLOT_INVALID;
    }
  }

  /** When no selected bucket from `i` on answers, neither does the search. */
  lemma {:induction false} SearchFromNone(b: Buckets, q: Query, w: Selection, i: nat)
    requires i <= 6
    ensures (forall l | i <= l < 6 :: !IsSelected(w, l) || BucketAnswer(b, q, l) == SLOT_INVALID) ==>
      SearchFrom(b, q, w, i) == SLOT_INVALID
    decreases 6 - i
  {
    if i < 6 {
      SearchFromNone(b, q, w, i + 1);
    }
  }

  /** The lists of an inventory holding one item in the personal slot 22. */
  function OnlyInSlot22(x: Inst): Buckets
  {
    EmptyBuckets.(inv := map[22 := x])
  }

  lemma EmptyBucketKeys()
    ensures BucketKeys(map[]) == []
  {
    var m: map<int16, Inst> := map[];
    assert m.Keys == {};
    KeyOrder.NoKeys(-0x8000, 0x8000);
  }

  /**
   * The count is a `uint8`: a stack of 256 charges adds 0, so `HasItem` with
   * quantity 1 does not see an inventory whose only item is that stack.
   */
  lemma StackOf256IsInvisible(x: Inst, where: uint8)
    requires I.GetID(x) != 0 && !I.IsCommon(x) && !I.IsType(x, ItemClassContainer)
    requires x.charges == 256
    ensures Search(OnlyInSlot22(x), ById(I.GetID(x), 1), where) == SLOT_INVALID
  {
    var q := ById(I.GetID(x), 1);
    var m := map[22 := x];
    assert m.Keys == {22};
    KeyOrder.SingleKey(22, -0x8000, 0x8000);
    assert BucketKeys(m) == [22];
    assert !AugmentHit(q, x);
    assert MapScan(q, m, 1, 0) == Continue(0);
    assert MapScan(q, m, 0, 0) == Continue(0);
    EmptyBucketKeys();
    var b := OnlyInSlot22(x);
    forall i | 0 <= i < 6 ensures BucketAnswer(b, q, i) == SLOT_INVALID {
    }
    SearchFromFirst(b, q, Selected(where), 0);
  }

  /**
   * The count starts again in every bucket: one charge in the worn slot 0 and
   * one in the personal slot 22 do not make a quantity of 2.
   */
  lemma CountsDoNotCarryAcrossBuckets(x: Inst, y: Inst, where: uint8)
    requires I.GetID(x) != 0 && I.GetID(y) == I.GetID(x)
    requires !I.IsCommon(x) && !I.IsType(x, ItemClassContainer) && ChargeCount(x) == 1
    requires !I.IsCommon(y) && !I.IsType(y, ItemClassContainer) && ChargeCount(y) == 1
    ensures Search(EmptyBuckets.(worn := map[0 := x], inv := map[22 := y]), ById(I.GetID(x), 2), where) == SLOT_INVALID
  {
    var q := ById(I.GetID(x), 2);
    var mw := map[0 := x];
    var mi := map[22 := y];
    assert mw.Keys == {0} && mi.Keys == {22};
    KeyOrder.SingleKey(0, -0x8000, 0x8000);
    KeyOrder.SingleKey(22, -0x8000, 0x8000);
    assert BucketKeys(mw) == [0] && BucketKeys(mi) == [22];
    assert !AugmentHit(q, x) && !AugmentHit(q, y);
    assert MapScan(q, mw, 1, 1) == Continue(1);
    assert MapScan(q, mw, 0, 0) == Continue(1);
    assert MapScan(q, mi, 1, 1) == Continue(1);
    assert MapScan(q, mi, 0, 0) == Continue(1);
    EmptyBucketKeys();
    var b := EmptyBuckets.(worn := mw, inv := mi);
    forall i | 0 <= i < 6 ensures BucketAnswer(b, q, i) == SLOT_INVALID {
    }
    SearchFromFirst(b, q, Selected(where), 0);
  }
}
