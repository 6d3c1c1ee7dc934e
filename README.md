# Item and inventory engine of an EverQuest server emulator

This project models the item engine of `common/Item.cpp` and `common/Item.h`:

- the flat `int16` slot ids and the codec that maps a bag slot to its parent slot and bag index;
- the `ItemInst` instance: a tree of children (bag contents or augments) with custom data;
- the evolving subclass `EvoItemInst`;
- the cursor queue `ItemInstQueue`;
- the `Inventory` class: five buckets (worn, personal, bank, shared bank, trade) and the cursor, with its put, pop, delete, swap, search and placement operations;
- the set-once `InventoryLimits` table;
- the global serial-number counter.

An item instance is a value (`Items.Inst`). A copy is a plain copy, and destroying an item means dropping it. The mutators of `ItemInst` are functions from the old instance to the new one.

`Inventory` is a class. Its bucket maps are fields, the cursor is an `ItemInstQueue` object and the limits are an `InventoryLimits` object. Each method that changes the inventory is an if-chain over the slot id that updates the fields in place. Each is proved to leave exactly the state that the matching transition function of `InventoryState` computes from the old contents (`Inventory.State()`). The properties the code promises are proved as lemmas about those functions.

The loops of the source are methods with loop invariants, each proved equal to a recursive specification function:

- the `HasItem*` searches;
- `HasSpaceForItem` and `FindFreeSlot`;
- `CheckNoDrop`;
- the child scans of `ItemInst`;
- `ClearByFlags`;
- the limits setters.

The source's quirks are kept as written and proved as lemmas:

- trade bags encode from 3031 but decode only from 3100;
- `PutItem` on the cursor drops two elements;
- `DeleteItem` of part of the cursor front drops the second element;
- swapping with an invalid slot loses the item;
- the search counter wraps at 256.

Constants that `Item.h` and `Item.cpp` use but do not define are abstract: `SLOT_CURSOR`, `SLOT_INVALID`, `SLOT_AUGMENT`, `MCONTENTS_OOR`, the `SUBSLOT_*`/`AUGSLOT_*` bounds, the item-class codes and the size table. Each is constrained only as far as the code relies on it. Truncating casts (`uint8`, `int16`, `uint32`) are written out.

## Model

| member | source | states |
|---|---|---|
| SlotCodec.CalcSlotId | common/Item.cpp:1230-1258 | the encoded id of a bag interior is in a known band or `SLOT_INVALID`, and is valid only for a parent that supports containers |
| SlotCodec.CalcParentSlotId | common/Item.cpp:1261-1291 | the decoded parent is a top-level slot, the cursor or `SLOT_INVALID` |
| SlotCodec.CalcBagIdx | common/Item.cpp:1293-1327 | the decoded bag index is below `MAX_ITEMS_PER_BAG` |
| SlotCodec.BagSlotRoundTrip | common/Item.cpp:1230-1327 | personal, bank and shared-bank parents with index 0..9 encode to an id that decodes back to the same parent and index |
| SlotCodec.CursorBagRoundTrip | common/Item.cpp:1236-1240 | the cursor's bag encodes to 331+idx and decodes back to `SLOT_CURSOR` and idx |
| SlotCodec.DecodeEncode | common/Item.cpp:1261-1327 | every decodable bag id re-encodes to itself |
| SlotCodec.TradeBagNoRoundTrip | common/Item.cpp:1252-1255 | trade bags encode from 3031, and the decoded parent is not the trade slot they came from |
| SlotCodec.TradeBagDecodeShift | common/Item.cpp:1285-1288 | ids 3100..3179 decode to a parent and index that re-encode 69 lower |
| SlotCodec.BankSlotsDecodeAsBagInteriors | common/Item.cpp:1273-1276 | the bank slots 2000..2023 also decode as bank-bag interiors |
| SlotCodec.TradeskillBand | common/Item.cpp:1321-1324 | the band 4000..4009 has a bag index but no parent |
| SlotCodec.CursorAliasUnreachable | common/Item.cpp:1365-1372 | the cursor alias 8000 does not support containers, so it encodes nothing |
| SlotCodec.OutOfBandDecode | common/Item.cpp:1261-1327 | an id outside the bag bands has parent `SLOT_INVALID` and index 0 |
| SlotCodec.FirstPersonalBagSlots | common/Item.cpp:1241-1244 | slots 251..260 are the first personal bag (22) and 261 starts the second |
| SlotCodec.BandsAreContiguous | common/Item.h:61-73 | the personal-bag band ends exactly where the cursor-bag band starts, and likewise for the bank and shared-bank bag bands |
| SlotCodec.CanItemFitInContainerMeaning | common/Item.cpp:1374-1385 | an item fits when both definitions exist, its size fits the bag, and a quiver or bandolier takes only arrows or throwing items |
| SlotCodec.MaterialRoundTrip | common/Item.cpp:1329-1362 | every material maps to a wear slot that maps back to the same material |
| SlotCodec.WearSlotRoundTrip | common/Item.cpp:1329-1362 | every wear slot maps to a material that maps back to it, except the second bracer, which comes back as the first |
| SlotCodec.MaterialSentinels | common/Item.cpp:1341-1342 | unknown materials give -1 and unknown slots give 0xFF |
| SlotCodec.InvalidateSlotStruct | common/Item.cpp:1177-1185 | the invalidated structure is a delete request with zeroed unknown fields |
| SlotCodec.IsValidServerSlotStruct | common/Item.cpp:1187-1196 | always false |
| SlotCodec.IsValidMobSlotStruct | common/Item.cpp:1198-1207 | true exactly for a delete request |
| SlotCodec.IsValidClientSlotStruct | common/Item.cpp:1209-1218 | true exactly for a delete request |
| SlotCodec.InvalidatedIsDeleteRequest | common/Item.cpp:1177-1227 | an invalidated structure passes the mob and client checks and fails the server check |
| SerialNumbers.NextSerial | common/Item.cpp:46-65 | from a non-negative counter the next serial number is positive |
| SerialNumbers.FirstAndWrap | common/Item.cpp:46-65 | the first number handed out is 2, and `INT_MAX` wraps to 1 |
| SerialNumbers.DistinctBeforeWrap | common/Item.cpp:46-65 | serial numbers are distinct until the counter wraps |
| SerialNumbers.AdvanceFromStart | common/Item.cpp:46-65 | after k draws from 1 the counter is k+1 |
| SerialNumbers.SerialCounter.GetNext | common/Item.cpp:48-65 | the counter steps once and returns the new value |
| ItemQueue.ItemInstQueue.Push | common/Item.cpp:97-100 | appends at the back |
| ItemQueue.ItemInstQueue.PushFront | common/Item.cpp:103-106 | prepends at the front |
| ItemQueue.ItemInstQueue.Pop | common/Item.cpp:109-117 | removes and returns the front; nothing from an empty queue, which stays empty |
| ItemQueue.ItemInstQueue.PeekFront | common/Item.cpp:120-123 | the front exactly when the queue is non-empty |
| ItemQueue.ItemInstQueue.Size | common/Item.h:197 | the number of elements |
| ItemData.NewEvolveInfo | common/Item.cpp:2350-2364 | each 32-bit kill count is stored truncated to 16 bits |
| ItemData.IsEquipableBy | common/Item.cpp:2373-2414 | equipable iff the class bit and the race bit (race 18 remapped to 16) are set |
| CustomData.LessTotal | common/Item.h:538 | the string order of the custom-data map is a strict total order (with LessIrreflexive and LessTransitive) |
| CustomData.Find | common/Item.cpp:1893-1900 | the lookup finds a key iff the map holds it, with its value |
| CustomData.GetCustomData | common/Item.cpp:1893-1900 | the stored value, or the empty string for a missing key |
| CustomData.SetCustomData | common/Item.cpp:1902-1906 | the map gains or overwrites exactly that key |
| CustomData.DeleteCustomData | common/Item.cpp:1932-1937 | the map loses exactly that key |
| CustomData.GetAfterSet | common/Item.cpp:1893-1906 | reading a key after setting it gives the new value; other keys are unchanged |
| CustomData.GetAfterDelete | common/Item.cpp:1893-1937 | a deleted key reads as the empty string |
| CustomData.GetCustomDataString | common/Item.cpp:1874-1891 | the loop builds `k^v^` per entry with an extra `^` between entries |
| CustomData.DecodeJoined | common/Item.cpp:1874-1891 | without `^` in keys and values, splitting the string at `^` gives the entries back |
| CustomData.NoEscaping | common/Item.cpp:1874-1891 | a `^` inside a key or value makes two different maps serialise to the same string |
| Items.NewInst | common/Item.cpp:1565-1579 | a new instance has the given definition, charges and serial number, no children, and the definition's colour only for a common item |
| Items.InstOfUseType | common/Item.h:379-388 | no definition, and zero charges, price and colour |
| Items.CloneKeepsInstance | common/Item.cpp:1597-1643 | a copy agrees with the original in every field but its children and evolving state, keeps the serial number and definition, and holds a copy of every child |
| Items.CloneIdempotent | common/Item.cpp:1636-1643 | copying a copy changes nothing |
| Items.Clone | common/Item.cpp:1636-1643 | a copy has children at exactly the indices of the original |
| Items.CloneIsCopy | common/Item.cpp:1597-1627 | without evolve information the copy is the whole original tree |
| Items.PutItemThenGetItem | common/Item.cpp:1961-1983 | after `PutItem` the index holds a copy of the item; no other index and no other field changes |
| Items.PopItemMeaning | common/Item.cpp:2001-2015 | `PopItem` returns the child `GetItem` sees and leaves the index empty, with other children unchanged |
| Items.DeleteItemMeaning | common/Item.cpp:2017-2023 | `DeleteItem` empties the index and nothing else |
| Items.OutOfRangeIsNoOp | common/Item.cpp:1961-2023 | an index with an `MCONTENTS_OOR` bit set finds nothing and changes nothing |
| Items.Clear | common/Item.cpp:1798-1810 | every index is empty afterwards; nothing else changes |
| Items.GetItemID | common/Item.cpp:1951-1959 | 0 without a child at the index |
| Items.AugmentsNeedCommon | common/Item.cpp:2046-2103 | the augment operations are the child operations on a common item and do nothing on any other |
| Items.PutItemFromDbNeverFillsBags | common/Item.cpp:1985-1999 | the database `PutItem` does nothing to a container |
| Items.PutItemFromDbIsAugmentPut | common/Item.cpp:1985-1999 | on a common item it stores below `BagSlots` as `PutItem` does, and the database `PutAugment` is `PutItem` |
| Items.OperatorsPartition | common/Item.h:510-512 | with a definition, `==` and `!=` are opposites; without one, both are false |
| Items.NoDefinitionDefaults | common/Item.h:426-446 | without a definition every predicate is false and every id is 0; `IsType(Container)` holds only for a world container |
| Items.WeaponRule | common/Item.cpp:1686-1692 | a weapon needs damage; arrows need damage only, other items damage and delay |
| Items.IsSlotAllowedMeaning | common/Item.cpp:1715-1742 | the first test never passes; an equipable slot is allowed; an augment slot is not; a possessions slot inside the bag range is allowed |
| Items.IsAugmentable | common/Item.cpp:1703-1713 | true iff some augment slot type is non-zero |
| Items.IsNoneEmptyContainer | common/Item.cpp:1744-1754 | true iff the item is a container with an occupied index below `BagSlots` |
| Items.AvailableWearSlot | common/Item.cpp:1756-1770 | true iff the item is common and some equipment slot bit is set in both masks |
| Items.IsAugmented | common/Item.cpp:1772-1782 | true iff the item is common and some augment slot holds an item with a non-zero id |
| Items.GetTotalItemCount | common/Item.cpp:1784-1796 | 1 for a non-container; 1 plus the occupied bag slots, truncated to `uint8`, for a container |
| Items.TotalCountAgreesWithEmptiness | common/Item.cpp:1784-1796 | below the wrap the count is 1 exactly when the bag is empty |
| Items.FirstOpenSlot | common/Item.cpp:1940-1949 | the least empty index below `BagSlots`, or `SUBSLOT_INVALID` when all are full |
| Items.AvailableAugmentSlot | common/Item.cpp:2026-2044 | the first empty augment slot whose type bit matches (any empty slot for -1), or `AUGSLOT_INVALID` |
| Items.IsEquipable | common/Item.cpp:1661-1666 | true iff a definition with wear slots exists and the class and race checks pass |
| Items.ClearByFlags | common/Item.cpp:1812-1872 | the loop leaves exactly the children that neither filter removes |
| Items.ClearStep | common/Item.cpp:1819-1870 | one child is erased exactly when its definition exists and a filter case fires on it |
| Items.ClearByFlagsIgnore | common/Item.cpp:1812-1872 | nothing is removed under two ignore filters, and a child without a definition is never removed |
| Items.ClearByFlagsSetRemovesAll | common/Item.cpp:1826-1847 | with a set filter the switch falls through and every child with a definition is removed |
| Items.ClearByFlagsNotSet | common/Item.cpp:1812-1872 | a not-set filter removes the children whose flag is non-zero; two filters combine by OR |
| EvoItems.NewEvoInst | common/Item.cpp:2202-2221 | a new evolving item has no experience, level 0, is inactive, and its definition is the given one |
| EvoItems.EvoFromBase | common/Item.cpp:2162-2200 | copies the base fields and children, with a fresh evolving state |
| EvoItems.ScalingAndEvolvingExclusive | common/Item.h:557-558 | never both scaling and evolving; neither at level 0 |
| EvoItems.AddExp | common/Item.h:561 | adds with `uint32` wrap-around |
| EvoItems.GetMaxEvolveLvl | common/Item.cpp:2325-2329 | the stored cap read as `int8`, or 0 without evolve information |
| EvoItems.GetKillsNeeded | common/Item.cpp:2331-2343 | never 0; 0xFFFFFFFF without evolve information, at the cap, or for a zero entry |
| EvoItems.CopiesForgetEvolveInfo | common/Item.cpp:2122-2160 | a copy of an evolving item loses its evolve information and keeps the rest of its evolving state |
| EvoItems.ScaleItem | common/Item.cpp:2262-2318 | the scaled definition is the unscaled one with the new damage and no charm file |
| EvoItems.InitializeMeaning | common/Item.cpp:2244-2260 | an item with a charm file becomes scaling with its scaled definition; any other is unchanged |
| EvoItems.ScaledDefinitionPreferred | common/Item.cpp:2233-2242 | `GetItem` shows the scaled definition when there is one |
| Limits.SlotTypeSizeMeaning | common/Item.h:145-146 | a known slot type reads its stored size; any other reads 0 |
| Limits.MobLimitsMeaning | common/Item.cpp:1449-1475 | mob limits are the server limits with the unused slot types marked unused |
| Limits.NewestClientsGetServerLimits | common/Item.cpp:1477-1535 | clients from RoF on get the server limits |
| Limits.OldestOverrideWins | common/Item.cpp:1477-1535 | older clients get each override of their era; the oldest matching override wins; other sizes stay the server's |
| Limits.SetOnceIdempotent | common/Item.cpp:1399-1535 | once limits are set a second setter changes nothing |
| Limits.InventoryLimits.GetSlotTypeSize | common/Item.h:145-146 | the stored table read through the range check |
| Limits.InventoryLimits.IsLimitsSet | common/Item.h:143 | the set-once flag |
| Limits.InventoryLimits.CopyServerSizes | common/Item.cpp:1403 | the table becomes the server table |
| Limits.InventoryLimits.SetServer | common/Item.cpp:1399-1447 | false and no change when already set; otherwise the server limits |
| Limits.InventoryLimits.SetMob | common/Item.cpp:1449-1475 | false and no change when already set; otherwise the mob limits |
| Limits.InventoryLimits.SetClient | common/Item.cpp:1477-1535 | false and no change when already set; otherwise the limits of the client version |
| Limits.InventoryLimits.Reset | common/Item.cpp:1537-1554 | every size and bound is 0 and the flag is cleared |
| InventoryState.WithBucket | common/Item.cpp:822-864 | replacing one bucket leaves every other bucket and the cursor unchanged |
| InventoryState.TopLevelRouting | common/Item.cpp:189-221 | a top-level slot reads its own bucket; the cursor reads the queue's front |
| InventoryState.AssignMeaning | common/Item.cpp:822-864 | storing at a top-level slot changes that slot only |
| InventoryState.AssignTwice | common/Item.cpp:822-864 | of two stores at one slot the second wins |
| InventoryState.AssignNoneOnEmpty | common/Item.cpp:822-864 | removing the entry of a slot that holds nothing changes nothing |
| InventoryState.CursorChangeKeepsWellFormed | common/Item.cpp:288-292 | a change to the cursor keeps each bucket holding only ids of its own range |
| InventoryState.AssignKeepsWellFormed | common/Item.cpp:822-864 | storing at or erasing a top-level slot keeps each bucket holding only ids of its own range |
| InventoryState.SetParentKeepsWellFormed | common/Item.cpp:866-885 | writing a changed bag back to its parent keeps the buckets well formed |
| InventoryState.PopKeepsWellFormed | common/Item.cpp:635-681 | `PopItem` keeps the buckets well formed |
| InventoryState.PutRawKeepsWellFormed | common/Item.cpp:822-885 | `_PutItem` keeps the buckets well formed |
| InventoryState.DeleteKeepsWellFormed | common/Item.cpp:576-609 | `DeleteItem` keeps the buckets well formed |
| InventoryState.PutItemKeepsWellFormed | common/Item.cpp:295-306 | `PutItem` keeps the buckets well formed |
| InventoryState.SwapKeepsWellFormed | common/Item.cpp:309-324 | `SwapItem` keeps the buckets well formed |
| InventoryState.ChangesKeepWellFormed | common/Item.cpp:288-324 | every change keeps each bucket holding only ids of its own range |
| InventoryState.InvalidSlotHoldsNothing | common/Item.cpp:189-280 | `SLOT_INVALID` holds nothing |
| InventoryState.TradeBagSlotsMiss | common/Item.cpp:228-237 | trade-bag ids 3031..3099 always read nothing |
| InventoryState.PopItemAgreesWithGetItem | common/Item.cpp:635-681 | `PopItem` returns what `GetItem` sees, except at 3111..3179, where `GetItem` finds nothing but `PopItem` reaches into the trade bag |
| InventoryState.PopBagSlot | common/Item.cpp:670-678 | popping a bag slot hands over the child of the container in the decoded parent slot, and nothing when the parent holds no container |
| InventoryState.PopTopLevel | common/Item.cpp:635-669 | popping a top-level slot returns its item and empties that slot only |
| InventoryState.PutItemTopLevel | common/Item.cpp:295-306 | `PutItem` at a top-level slot returns the slot and stores a copy of the item, or empties the slot for an item without a definition; nothing else changes |
| InventoryState.PutRawWithoutContainer | common/Item.cpp:866-885 | `_PutItem` at a bag id whose parent holds no container stores nothing and returns `SLOT_INVALID` |
| InventoryState.CursorBehaviour | common/Item.cpp:288-292 | `PushCursor` appends a copy and returns `SLOT_CURSOR`; pop and read act on the front; `_PutItem` at the cursor replaces the front and keeps the length |
| InventoryState.PutItemOnCursorDropsTwo | common/Item.cpp:295-306 | `PutItem` at the cursor drops the front and the next element, then prepends the copy |
| InventoryState.DeleteItemChargeRule | common/Item.cpp:576-609 | charges drop by q; the item is removed (true) when it is used up, and otherwise put back (false); with q 0 or an empty slot the slot ends empty (true) |
| InventoryState.DeleteItemChargeRuleInBag | common/Item.cpp:576-609 | at index k below 10 of a bag in a personal, bank or shared-bank slot: charges drop by q; a used-up child leaves the index empty (true), any other is put back there reduced (false); an empty index changes nothing (true); with q 0 the index ends empty (true) |
| InventoryState.DeleteItemInBagKeepsRest | common/Item.cpp:576-609 | deleting at index k of such a bag leaves the bag's other indices, every other top-level slot and the cursor as they were |
| InventoryState.PartialDeleteOnCursorDropsSecond | common/Item.cpp:576-609 | putting a partly used cursor front back drops the second element |
| InventoryState.SwapCheckIgnoresSlots | common/Item.cpp:309-324 | the swap check depends on the two items and the placeholder only, and a refused swap changes nothing |
| InventoryState.SwapTopLevel | common/Item.cpp:309-324 | an allowed swap of two top-level slots exchanges their items and changes no other slot |
| InventoryState.SwapWithInvalidSlotLosesItem | common/Item.cpp:309-324 | swapping with `SLOT_INVALID` empties the slot and the item is lost |
| InventorySearch.ChildKeys | common/Item.cpp:918 | the loop over a bag's contents (here and at line 971) visits only indices that hold a child |
| InventorySearch.BucketKeys | common/Item.cpp:888-939 | the scan visits only slot ids the bucket holds |
| KeyOrder.KeysInIncreasing | common/Item.cpp:888-939 | the keys a scan visits are strictly ascending, as a `std::map` iterates them |
| InventorySearch.EmptyBucketKeys | common/Item.cpp:888-939 | an empty bucket has no slot ids to visit |
| InventorySearch.FindAugment | common/Item.cpp:909-912 | the augment loop finds a match iff some augment slot matches; the same loop recurs at lines 929-932, 962-965, 982-985, 1091-1096 and 1112-1117 |
| InventorySearch.ProbeItem | common/Item.cpp:895-927 | one item's test and count |
| InventorySearch.ScanEntry | common/Item.cpp:895-936 | the item and then its children, in ascending index order |
| InventorySearch.ScanChildren | common/Item.cpp:915-932 | the loop over a container's children gives the children's answer, in ascending index order |
| InventorySearch.ScanBucket | common/Item.cpp:888-939 | the bucket loop gives the bucket's answer, with a `uint8` count restarted per bucket |
| InventorySearch.ScanCursor | common/Item.cpp:942-992 | the cursor loop gives the cursor's answer |
| InventorySearch.SearchOne | common/Item.cpp:331-384 | the answer of one selected bucket |
| InventorySearch.SearchAll | common/Item.cpp:331-487 | the search over the buckets the `where` mask selects, in the fixed order |
| InventorySearch.SearchSelected | common/Item.cpp:331-384 | the chain of bucket searches stops at the first answer other than `SLOT_INVALID` |
| InventorySearch.ProbeMeaning | common/Item.cpp:895-927 | a hit is the item's own slot for a matching item or `SLOT_AUGMENT` for a matching augment |
| InventorySearch.MapScanSound | common/Item.cpp:888-939 | a found slot holds a match or is `SLOT_AUGMENT`; for lore groups and quantity 0 the bucket answers iff some entry matches |
| InventorySearch.QueueScanSound | common/Item.cpp:942-992 | the same for the cursor |
| InventorySearch.ChildScanSound | common/Item.cpp:915-932 | the same for the children of one item |
| InventorySearch.EntryScanSound | common/Item.cpp:895-936 | the same for one item and its children |
| InventorySearch.ProbeCount | common/Item.cpp:900-912 | an answered slot other than an augment's means the count with this item reached the quantity; going on, the count is the sum wrapped to a `uint8`, unchanged or below the quantity |
| InventorySearch.ChildScanCount | common/Item.cpp:915-932 | over the children of one bag, an answered slot other than an augment's means the start count plus the unwrapped sum of their counts reached the quantity |
| InventorySearch.ChildScanCarries | common/Item.cpp:915-932 | a scan of the children that answers nothing ends at the start count plus their sum wrapped to a `uint8`, equal to the start or below the quantity |
| InventorySearch.EntryScanCarries | common/Item.cpp:895-936 | the same for one item and its children |
| InventorySearch.EntryScanCount | common/Item.cpp:895-936 | the same for one item and its children |
| InventorySearch.MapScanCount | common/Item.cpp:888-939 | a found slot other than `SLOT_AUGMENT` means the start count plus the unwrapped count of the matching entries and bag children reached the quantity; `SLOT_AUGMENT` otherwise needs a matching augment in some entry |
| InventorySearch.MapScanCarries | common/Item.cpp:888-939 | a bucket scan that finds nothing ends at the start count plus that unwrapped count modulo 256, equal to the start or below the quantity |
| InventorySearch.QueueScanCount | common/Item.cpp:942-992 | the same as `MapScanCount` for the cursor |
| InventorySearch.QueueScanCarries | common/Item.cpp:942-992 | the same as `MapScanCarries` for the cursor |
| InventorySearch.AugmentHitQuery | common/Item.cpp:911 | an augment matches a search by id or by use only for a search by id for at most one item |
| InventorySearch.BucketQuantity | common/Item.cpp:888-939 | `HasItem` / `HasItemByUse` on one bucket: an answer other than `SLOT_INVALID` and `SLOT_AUGMENT` means the matching items hold at least the quantity; `SLOT_AUGMENT` with fewer only for a search by id for at most one item, with a matching augment; a quantity of at least 1 reached by an unwrapped count below 256 is always found |
| InventorySearch.CursorQuantity | common/Item.cpp:942-992 | the same for the cursor |
| InventorySearch.SearchFromFirst | common/Item.cpp:331-384 | the answer is the first selected bucket's answer other than `SLOT_INVALID`, and `SLOT_INVALID` when every selected bucket answers that |
| InventorySearch.SearchFromAt | common/Item.cpp:331-384 | an answer other than `SLOT_INVALID` comes from a selected bucket, and every selected bucket before it answered `SLOT_INVALID` |
| InventorySearch.SearchFromNone | common/Item.cpp:331-384 | when every selected bucket answers `SLOT_INVALID`, so does the search |
| InventorySearch.StackOf256IsInvisible | common/Item.cpp:893-911 | a stack of 256 wraps the `uint8` count to 0 and is not found even for quantity 1 |
| InventorySearch.CountsDoNotCarryAcrossBuckets | common/Item.cpp:331-384 | single items in two buckets do not add up to quantity 2 |
| InventorySpace.BagBase | common/Item.cpp:1241-1244 | the first bag slot of personal slot i is 251 + (i-22)*10 |
| InventorySpace.HasSpaceForItem | common/Item.cpp:491-573 | the two loops agree with `HasSpace`, which passes when the open stacks and then the empty slots and fitting bags absorb the whole quantity |
| InventorySpace.FillOpenStacks | common/Item.cpp:495-528 | the first pass takes quantity off the open stacks of the same id |
| InventorySpace.FillOpenStacksInBag | common/Item.cpp:508-526 | the same inside one bag |
| InventorySpace.FillEmptySlots | common/Item.cpp:530-570 | the second pass takes quantity off empty slots and fitting bags |
| InventorySpace.FillEmptySlotsInBag | common/Item.cpp:550-568 | the same inside one bag |
| InventorySpace.HasSpaceCountsEmptySlots | common/Item.cpp:491-573 | for a non-stackable item and quantity ≥ 1, room iff the empty personal slots and empty fitting bag slots number at least the quantity |
| InventorySpace.EmptySlotsCounts | common/Item.cpp:530-570 | the second pass's shortfall is the quantity less the free-slot count |
| InventorySpace.OneOpenStackSuffices | common/Item.cpp:495-528 | one same-id personal stack with room for the quantity gives room |
| InventorySpace.StackSlotsFinds | common/Item.cpp:495-528 | the first pass reaches every personal stack and bag stack |
| InventorySpace.FindFreeSlot | common/Item.cpp:685-732 | the loops agree with `FreeSlot`, whose choice `FreeSlotMeaning` states |
| InventorySpace.FindEmptyBagSlot | common/Item.cpp:700-723 | the first empty slot of the first eligible bag |
| InventorySpace.FindEmptyInBag | common/Item.cpp:712-720 | the first empty slot of one bag |
| InventorySpace.FreeSlotMeaning | common/Item.cpp:685-732 | the lowest empty personal slot wins whatever the flags; then, unless a bag is wanted and when some eligible bag has an empty index below its slot count, the first empty index of the first such bag; else the cursor or `SLOT_INVALID`; `is_arrow` is never read |
| InventorySpace.FirstEmptySlotMeaning | common/Item.cpp:688-695 | the lowest empty personal slot, or none when all are full |
| InventorySpace.FirstEmptyBagSlotMeaning | common/Item.cpp:700-723 | a found slot is the first empty index of a bag big enough and not a quiver (unless itself an arrow), and every such bag before it is full |
| InventorySpace.FirstEmptyBagSlotNone | common/Item.cpp:700-723 | nothing is found iff no such bag from the start slot on has room |
| InventorySpace.FirstBagStep | common/Item.cpp:700-723 | a bag with room answers its first empty index; any other slot passes the scan on |
| InventorySpace.FirstEmptyInBagMeaning | common/Item.cpp:712-720 | a found slot is the lowest empty index from k below n, with every index before it taken |
| InventorySpace.FirstEmptyInBagNone | common/Item.cpp:712-720 | nothing is found iff every index from k below n is taken |
| InventorySpace.CheckNoDrop | common/Item.cpp:612-631 | true iff the item has `NoDrop` 0, or has item class 1 and one of its first ten bag slots holds such an item |
| Inventories.Inventory.CursorEmpty | common/Item.h:227 | true iff the cursor holds no item |
| Inventories.Inventory.IsLimitsSet | common/Item.h:303 | the limits' flag |
| Inventories.Inventory.BucketEntry | common/Item.cpp:810-818 | `_GetItem`: the entry exactly when the bucket holds the slot |
| Inventories.Inventory.CursorFront | common/Item.cpp:195-198 | the cursor's front, present exactly when the cursor is not empty |
| Inventories.Inventory.ChildOf | common/Item.cpp:227-278 | the child a bag slot names, and nothing when the parent is not a container |
| Inventories.Inventory.SetTopLevel | common/Item.cpp:841-865 | the bucket of the slot gains or loses exactly that entry |
| Inventories.Inventory.UpdateBag | common/Item.cpp:866-877 | the changed bag replaces the old one in its top-level slot or at the cursor's front |
| Inventories.Inventory.GetItem | common/Item.cpp:189-280 | the routing reads the buckets, the cursor and the bags as `InventoryState.GetItem` does |
| Inventories.Inventory.GetItemInBag | common/Item.cpp:283-286 | the item at the encoded bag slot |
| Inventories.Inventory.PopItem | common/Item.cpp:635-681 | the new contents and the popped item are those of `InventoryState.PopItem`, and the buckets stay well formed |
| Inventories.Inventory.PutRaw | common/Item.cpp:822-885 | the new contents and the result are those of `InventoryState.PutRaw` (store at the cursor front, a top-level slot or inside the parent bag), and the buckets stay well formed |
| Inventories.Inventory.DeleteItem | common/Item.cpp:576-609 | the new contents and the result are those of `InventoryState.DeleteItem` (the charge rule of `DeleteItemChargeRule`), and the buckets stay well formed |
| Inventories.Inventory.PutItem | common/Item.cpp:295-306 | the new contents and the result are those of `InventoryState.PutItem` (delete, then store a copy), and the buckets stay well formed |
| Inventories.Inventory.PushCursor | common/Item.cpp:288-292 | a copy is appended to the cursor, `SLOT_CURSOR` is returned, and the buckets stay well formed |
| Inventories.Inventory.SwapItem | common/Item.cpp:309-324 | the new contents and the result are those of `InventoryState.SwapItem` (both items checked against the placeholder, then exchanged), and the buckets stay well formed |
| Inventories.Inventory.HasItem | common/Item.cpp:331-384 | the slot the search by id finds in the current contents: the first selected bucket's answer (`SearchFromFirst`), which holds the quantity as `BucketQuantity` states |
| Inventories.Inventory.HasItemByUse | common/Item.cpp:387-436 | the slot the search by item type finds: the first selected bucket's answer, which holds the quantity as `BucketQuantity` states |
| Inventories.Inventory.HasItemByLoreGroup | common/Item.cpp:438-487 | the slot the search by lore group finds |
| Inventories.Inventory.HasSpaceForItem | common/Item.cpp:491-573 | the placement answer for the current contents |
| Inventories.Inventory.FindFreeSlot | common/Item.cpp:685-732 | the free slot for the current contents |
| Inventories.Inventory.CheckNoDrop | common/Item.cpp:612-631 | the no-drop answer for the current contents |

## Left out

- Console dumps (`dump*`), log writes and the profiling macros: output only.
- Memory management is modelled as dropping values: destructors, `safe_delete`, the pointer the cursor's `_PutItem` leaks, and the popped item `_PutItem(slot, nullptr)` does not free.
- Inventories.Inventory.UpdateBag: in the source a bag is changed in place through a pointer. The model writes the new bag value back to its parent slot, so aliasing between a bag and another holder of the same pointer is not captured.
- Dereferencing a missing definition (undefined behaviour in C++) reads as the all-zero definition `ZeroDef`.
- `SetCustomData` with an `int`, `float` or `bool` value: they format through `std::stringstream`. Only the string overload is modelled.
- EvoItems.ScaleItem: the scaled damage is computed in floating point from the experience. It is a parameter here; only the rest of the scaled copy (no charm file) is stated.
- The `SharedDatabase` constructors and lookups, and `GetArrayRace`, are foreign code. Their results are parameters (`created` items, the looked-up race).
- `ItemInst::Serialize` copies a raw pointer into a string and is not modelled.
- The unused buckets (`m_possessions` … `m_other`) and the empty `ManagedCursor` class are not modelled.
- `m_currentslot`, with its getter and setter and the copies the copy constructors make of it, is not modelled: nothing in the core reads it.
- Uninitialised values are parameters: the merchant count and serial number of `ItemInst(ItemUseType)`, and the placeholder slot structure of `SwapItem`.
- The `m_cursor` iterators and `GetContents` are not modelled: they give raw access to the internal containers.
- The one-line getters and setters of `ItemInst` and `InventoryLimits` are not modelled as separate members: the model reads and writes the fields directly.
- `Inventory::SetCustomItemData` and `Inventory::GetCustomItemData` are declared in `Item.h` but not defined in `Item.cpp`.
- EvoItems.GetKillsNeeded: the source indexes `LvlKills[currentlevel - 1]` for any level other than the cap, so level 0 and levels 10 to 255 read outside the nine-entry array. That is undefined behaviour in C++, and the precondition `KillsIndexDefined` excludes those levels.
- Items.Equals / Items.NotEquals: the source compares the `Item_Struct` pointers. The model compares the definitions as values, so two distinct definitions with equal fields compare equal here and not in the source.
- Inventories.Inventory.SwapItem: `_PutItem` stores pointers without copying, so swapping a bag with one of its own children makes the bag contain itself in the source. Values cannot express that cycle: in the model the second store goes to whatever value the parent slot holds after the first one. Swapping a bag with a child that is not a container is also not captured: the second `_PutItem` fails because the new parent is no container, and its `safe_delete` of the bag (Item.cpp:881) frees, through the bag's `Clear`, the child now stored in the first slot, leaving a dangling pointer there; the model keeps that child intact.
- Items.AvailableAugmentSlot: the bit test `1 << (t-1)` is modelled for slot types up to 32; a wider shift is undefined in C++ and is not modelled.
- CustomData: keys and values are Dafny strings, sequences of Unicode scalar values, while `std::string` holds bytes. The code-point order used here agrees with the byte order of `std::less<std::string>` only for valid UTF-8, and byte strings that are not UTF-8 cannot be expressed.
- The iteration order of `std::map` is ascending key order, modelled by filtering a fixed key range (`KeyOrder`).
