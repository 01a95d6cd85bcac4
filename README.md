# Securities master: a verified model of the catalogue core

This project models the core of `am92-securities-utility`, a browser library that downloads a
securities master and answers questions about it. The snapshot (`MASTER_DATA`) maps each of 17
exchange segments to a list of positional JSON rows:

- flat equity rows;
- flat underlying rows;
- nested derivative groups, each holding a list of contract legs.

From one pass over the snapshot the library builds four indexes:

- script id to location;
- ISIN to script ids;
- underlying id to its futures and options;
- priority band to search records.

It keeps the snapshot and the indexes in a module-level store. It answers lookups by script id, by
ISIN and for derivatives, through an LRU-memoised decoder. Its search fans out over one web worker
per priority band: each worker holds its band in one or two priority sub-chunks and ranks its fuzzy
matches. The manager collects the replies by worker index and decodes every hit back into a script
record.

The model follows the program's structure, one Dafny module per concern:

| module | file | source |
|---|---|---|
| `Js` | `js.dfy` | JavaScript semantics the code relies on: `Option`, thrown exceptions (`Outcome.Crash`), JSON scalars, truthiness, `split`, `includes` |
| `Segments` | `segments.dfy` | the segment enum and the `SEC_SEGMENTS` table |
| `Records` | `records.dfy` | the row layouts, locations and index shapes of `Store.ts` |
| `ChunkBands` | `chunk_bands.dfy` | `WORKER_CHUNK_*`, `getChunkIndex`, `MAX_FUSE_CHUNK_SIZE` |
| `ScriptIdIndexing`, `IsinCodeIndexing`, `DerivativesIndexing`, `SearchStringIndexing` | `script_id_index.dfy` … | the four index handlers, each a class with a `map` field; each `addRow` is proved against a step function, and each fold of those steps is proved against a reference definition |
| `IndexBuilder` | `index_builder.dfy` | `createIndexes`: the nested loops over table, rows and legs |
| `CatalogueStore` | `catalogue_store.dfy` | the store object, `addStore`, the setters and getters |
| `Memoize` | `memoize.dfy` | `memoize`: the insertion-ordered map with move-to-end and evict-first |
| `ScriptFields`, `SecMaster`, `DerivativeLookup` | `script_fields.dfy`, `sec_master.dfy`, `derivative_lookup.dfy` | the lookup layer of `secMaster.ts` |
| `LookupConsistency` | `lookup_consistency.dfy` | what the lookups return on the indexes a full build produces |
| `StableSort`, `SearchWorkers` | `stable_sort.dfy`, `search_worker.dfy` | `SearchWorker`: chunking and the two stable sorts |
| `BandOrder`, `SearchManagers` | `band_order.dfy`, `search_manager.dfy` | `SearchManager`: worker setup, reply slotting, `_flattenResult` |

The state the source mutates is modelled with classes:

- the handlers, the store, the memoiser, the search worker and the search manager each become a
  class;
- every mutating method is proved against a function of the old state;
- the properties the source promises are proved about those functions.

The store is passed to the lookup functions as values, so the lookup layer is pure.

JavaScript behaviour is modelled explicitly:

- `priority || 100` replaces both null and 0;
- `!underlying` holds for both null and 0;
- a valid ISIN must be truthy and not `"0"`;
- `if (derivativeItemIndex)` treats leg 0 as absent;
- `forEach` skips array holes;
- `{...undefined}` is `{}`;
- `Object.values` enumerates integer keys in ascending order;
- reading a position of `undefined` throws; this is `Crash`.

`src/TYPES/Store.ts:56-79` gives the underlying row 22 positions; the model follows it.

## Model

| member | source | states |
|---|---|---|
| Segments.NameJoinsParts | src/TYPES/Store.ts:4-22 | every enum value is three `_`-free tokens joined by `_` |
| Segments.NameInjective | src/TYPES/Store.ts:4-22 | distinct segments have distinct string values |
| Segments.Tokens | src/Constants/SECURITY_MASTER.ts:11-27 | every segment name splits on `_` into exactly three tokens, which are its parts |
| Segments.Position | src/Constants/SECURITY_MASTER.ts:10-28 | every segment has an entry in the table |
| Segments.TableListsEverySegmentOnce | src/Constants/SECURITY_MASTER.ts:10-28 | the table has 17 entries with distinct names and lists every enum member |
| Segments.TableKindFollowsInstrumentToken | src/Constants/SECURITY_MASTER.ts:11-27 | each entry's structural kind is the one its third token stands for: `EQUITY` flat equity, `UNDERLYING` flat underlying, anything else nested |
| Segments.KindFollowsInstrumentToken | src/Constants/SECURITY_MASTER.ts:11-27 | a segment is flat equity exactly when its instrument-type token is `EQUITY`, flat underlying exactly when it is `UNDERLYING`, and nested otherwise |
| Segments.TableOrder | src/Constants/SECURITY_MASTER.ts:11-27 | two equities come first, then ten nested segments, then five underlyings; NSE equity comes before BSE equity |
| Segments.IncludesEquityIffFlatEquity | src/Download/indexes/searchStringIndex.ts:42 | `segmentKey.includes('EQUITY')` holds exactly for the flat equity segments |
| Segments.IncludesUnderlyingIffFlatUnderlying | src/Download/indexes/isinCodeIndex.ts:30 | `segmentKey.includes('UNDERLYING')` holds exactly for the flat underlying segments |
| Records.EquityTuple | src/TYPES/Store.ts:28-54 | an equity row is a 25-position array |
| Records.EquityTupleRoundTrip | src/TYPES/Store.ts:28-54 | a row survives the trip to its positional array and back |
| Records.EquityTupleFaithful | src/TYPES/Store.ts:28-54 | an array that reads as an equity row is exactly that row's array, so no position is lost or moved |
| Records.UnderlyingTuple | src/TYPES/Store.ts:56-79 | an underlying row is a 22-position array |
| Records.UnderlyingTupleRoundTrip | src/TYPES/Store.ts:56-79 | an underlying row survives the trip to its array and back |
| Records.UnderlyingTupleFaithful | src/TYPES/Store.ts:56-79 | an array that reads as an underlying row is exactly that row's array |
| Records.LegTuple | src/TYPES/Store.ts:81-106 | a derivative leg is a 24-position array |
| Records.LegTupleRoundTrip | src/TYPES/Store.ts:81-106 | a leg survives the trip to its array and back |
| Records.LegTupleFaithful | src/TYPES/Store.ts:81-106 | an array that reads as a leg is exactly that leg's array |
| ChunkBands.GetChunkIndex | src/Constants/SEARCH_WORKER.ts:68-89 | total on every priority, null included; the band is always one of 0 to 3 |
| ChunkBands.MetaIsIndexedAndContiguous | src/Constants/SEARCH_WORKER.ts:10-50 | `WORKER_CHUNK_META[i].chunkIndex == i`; the four ranges are non-empty and each starts one past the previous maximum |
| ChunkBands.DefaultPriorityLandsInBandZero | src/Constants/SEARCH_WORKER.ts:58-75 | a null or 0 priority becomes 100 and lands in band 0 |
| ChunkBands.BandBoundaries | src/Constants/SEARCH_WORKER.ts:71-85 | boundaries are inclusive and leave no gap: 25000 is band 0, 25001 band 1, 125000 band 1, 125001 band 2, 150000 band 2, 150001 band 3 |
| ChunkBands.OutOfRangeFallsToLastBand | src/Constants/SEARCH_WORKER.ts:86-88 | every non-zero priority below 1 or above 150000 falls to band 3, even above 199999 |
| ChunkBands.ChunkIndexAgreesWithMeta | src/Constants/SEARCH_WORKER.ts:68-89 | on 1 to 199999 the band returned is the only table entry whose range holds the priority |
| ChunkBands.ChunkIndexMonotone | src/Constants/SEARCH_WORKER.ts:71-88 | on 1 to 199999 a larger priority never gets a lower band |
| ScriptIdIndexing.LocationOf | src/Download/indexes/scriptIdIndex.ts:34-38 | the array stored for a call is `[segmentKey, itemIndex]`, with `3` and the leg index pushed exactly when the leg index is truthy; the location names the visit's segment and row, and its leg exactly then |
| Records.LocationArrayInjective | src/TYPES/Store.ts:135-137 | the stored `[segment, index]` or `[segment, index, position, leg]` array determines the location |
| ScriptIdIndexing.IntendedLocationOf | src/Download/indexes/scriptIdIndex.ts:34-38 | corrected location: every leg, leg 0 included, gets the four-element form with position `3`; flat rows and other legs are unchanged |
| ScriptIdIndexing.StepSetsOneKey | src/Download/indexes/scriptIdIndex.ts:25-40 | one `addRow` sets the entry of its id (the leg's id for a leg, else the row's) to its location, whatever the allow-flag, and leaves every other key |
| ScriptIdIndexing.FoldKeys | src/Download/indexes/scriptIdIndex.ts:15-41 | the keys of a built index are exactly the ids visited |
| ScriptIdIndexing.FoldValues | src/Download/indexes/scriptIdIndex.ts:40 | every entry is the location of some visit carrying that id |
| ScriptIdIndexing.LastWriteWins | src/Download/indexes/scriptIdIndex.ts:40 | the entry for an id is the location of the last visit carrying it |
| ScriptIdIndexing.ScriptIdIndexHandler.constructor | src/Download/indexes/scriptIdIndex.ts:13 | the handler starts with an empty index |
| ScriptIdIndexing.ScriptIdIndexHandler.AddRow | src/Download/indexes/scriptIdIndex.ts:15-41 | the new index is one step of the fold applied to the old one |
| ScriptIdIndexing.ScriptIdIndexHandler.GetIndex | src/Download/indexes/scriptIdIndex.ts:43 | returns exactly the accumulated map |
| IsinCodeIndexing.StepEffect | src/Download/indexes/isinCodeIndex.ts:30-50 | legs, underlying rows, rows flagged `"N"` and rows with an invalid ISIN (falsy or `"0"`) change nothing; otherwise the row's id is appended to its ISIN's list, which is created if needed, and no other key changes |
| IsinCodeIndexing.StepKeepsWellFormed | src/Download/indexes/isinCodeIndex.ts:46-50 | no key is invalid and no list is empty, before and after every call |
| IsinCodeIndexing.ContributorListed | src/Download/indexes/isinCodeIndex.ts:30-50 | every contributing row's id is among the ids listed for its ISIN |
| IsinCodeIndexing.FoldIsIdsWithIsin | src/Download/indexes/isinCodeIndex.ts:19-51 | the built index has a key exactly for each ISIN with a contributing row, mapped to those rows' ids in visiting order |
| IsinCodeIndexing.IsinCodeIndexHandler.constructor | src/Download/indexes/isinCodeIndex.ts:17 | the handler starts with an empty index |
| IsinCodeIndexing.IsinCodeIndexHandler.AddRow | src/Download/indexes/isinCodeIndex.ts:19-51 | the new index is one step of the fold applied to the old one |
| IsinCodeIndexing.IsinCodeIndexHandler.GetIndex | src/Download/indexes/isinCodeIndex.ts:53 | returns exactly the accumulated map |
| DerivativesIndexing.TokenClassifiesSegment | src/Download/indexes/derivativesIndex.ts:20-29 | the futures types are the third tokens of exactly the five futures segments, the options types of exactly the five options segments, and neither list holds the token of an equity or underlying segment |
| DerivativesIndexing.KeyOfBySegment | src/Download/indexes/derivativesIndex.ts:75-79 | legs of `NSE_FO_FUTSTK`, `NSE_FO_FUTIDX`, `NSE_CURR_FUTCUR`, `MCX_COMM_FUTCOM` and `NCDEX_COMM_FUTCOM` go to FUTURES; legs of `NSE_FO_OPTIDX`, `NSE_FO_OPTSTK`, `NSE_CURR_OPTCUR`, `MCX_COMM_OPTFUT` and `NCDEX_COMM_OPTFUT` go to OPTIONS; no list exactly for the flat segments |
| DerivativesIndexing.NestedSegmentsAreClassified | src/Download/indexes/derivativesIndex.ts:20-29 | every nested segment of the table is classified as futures or options |
| DerivativesIndexing.StepEffect | src/Download/indexes/derivativesIndex.ts:53-83 | a flat row, a leg flagged `"N"` or a group with a null or 0 underlying changes nothing; otherwise the underlying's entry is created with both lists empty if needed, and the leg's id is appended to the chosen list; the other list and the other keys are unchanged |
| DerivativesIndexing.StepKeepsWellFormed | src/Download/indexes/derivativesIndex.ts:68-83 | a created entry always receives a push, so no entry has both lists empty and no key is 0 |
| DerivativesIndexing.FoldKeys | src/Download/indexes/derivativesIndex.ts:42-84 | the built index has an entry exactly for the underlyings of contributing legs |
| DerivativesIndexing.FoldEntry | src/Download/indexes/derivativesIndex.ts:81-83 | each entry's FUTURES and OPTIONS lists are the ids of the contributing legs of that underlying, by list, in visiting order |
| DerivativesIndexing.FoldWellFormed | src/Download/indexes/derivativesIndex.ts:68-83 | an index built by the traversal has no empty entry |
| DerivativesIndexing.DerivativesIndexHandler.constructor | src/Download/indexes/derivativesIndex.ts:40 | the handler starts with an empty index |
| DerivativesIndexing.DerivativesIndexHandler.AddRow | src/Download/indexes/derivativesIndex.ts:42-84 | the new index is one step of the fold applied to the old one |
| DerivativesIndexing.DerivativesIndexHandler.GetIndex | src/Download/indexes/derivativesIndex.ts:86 | returns exactly the accumulated map |
| SearchStringIndexing.Read | src/Download/indexes/searchStringIndex.ts:42-63 | the branch follows the segment's kind. Each branch reads its layout's allow-flag, search string and raw priority. Flat rows get a two-element location. A leg's location always has four elements, leg 0 included, and a leg takes its symbol from the group |
| SearchStringIndexing.StepEffect | src/Download/indexes/searchStringIndex.ts:65-78 | a record flagged `"N"` changes nothing; otherwise it goes to the end of the bucket of `getChunkIndex(priority)`, which is created if needed, and the other buckets are unchanged |
| SearchStringIndexing.StepKeepsWellFormed | src/Download/indexes/searchStringIndex.ts:74-78 | buckets are keyed 0 to 3, never empty, and hold only records of their band |
| SearchStringIndexing.FoldIsBuckets | src/Download/indexes/searchStringIndex.ts:26-79 | the built index has a bucket exactly for each band that received a record, holding that band's records in visiting order |
| SearchStringIndexing.SearchStringIndexHandler.constructor | src/Download/indexes/searchStringIndex.ts:24 | the handler starts with an empty index |
| SearchStringIndexing.SearchStringIndexHandler.AddRow | src/Download/indexes/searchStringIndex.ts:26-79 | the new index is one step of the fold applied to the old one |
| SearchStringIndexing.SearchStringIndexHandler.GetIndex | src/Download/indexes/searchStringIndex.ts:81 | returns exactly the accumulated map |
| IndexBuilder.LegVisitsAreLegs | src/Download/DownloadWorker.ts:162-177 | the legs of a group are visited once each, with their leg index, in ascending order |
| IndexBuilder.FlatRowsVisitedInOrder | src/Download/DownloadWorker.ts:144-154 | a flat segment's rows are visited once each, with their item index, in ascending order |
| IndexBuilder.VisitsOrdered | src/Download/DownloadWorker.ts:138-180 | the calls are strictly ordered by table position, then item index, then leg index, so no call is repeated |
| IndexBuilder.VisitsAreGenuine | src/Download/DownloadWorker.ts:138-180 | the handlers are called exactly for the rows of the flat segments and the legs of the nested segments the snapshot holds; absent segments, and keys outside the table, are never visited |
| IndexBuilder.VisitsShaped | src/Download/DownloadWorker.ts:144-178 | every call has the layout its segment's kind prescribes |
| IndexBuilder.LaterOccurrenceWins | src/Download/DownloadWorker.ts:138-178 | when an id occurs more than once, the script index keeps the location of its occurrence latest in visiting order |
| IndexBuilder.AddRowToAll | src/Download/DownloadWorker.ts:151-153 | one call reaches every handler present, and each then holds the fold of the calls so far |
| IndexBuilder.AddFlatSegment | src/Download/DownloadWorker.ts:148-154 | after the row loop the handlers hold the fold extended by the segment's rows |
| IndexBuilder.AddGroup | src/Download/DownloadWorker.ts:159-177 | after the leg loop the handlers hold the fold extended by the group's legs |
| IndexBuilder.AddFlatRow | src/Download/DownloadWorker.ts:149-153 | one pass of the row loop extends the handlers' fold by that row |
| IndexBuilder.AddNestedRow | src/Download/DownloadWorker.ts:158-176 | one pass of the row loop extends the handlers' fold by every leg of that group |
| IndexBuilder.AddNestedSegment | src/Download/DownloadWorker.ts:156-178 | after the row loop of a nested segment the handlers hold the fold extended by every leg of every group |
| IndexBuilder.AddSegment | src/Download/DownloadWorker.ts:139-178 | an absent segment is skipped; a present one is fed by its kind's loop |
| IndexBuilder.AddSegments | src/Download/DownloadWorker.ts:138-180 | after the table loop the handlers hold the fold of every visit, in table order |
| IndexBuilder.CreateIndexes | src/Download/DownloadWorker.ts:117-198 | the result holds the folds of all visits from handlers 0 to 2; a search index is present exactly when it was required, and it is that fold |
| CatalogueStore.PutOverwritesOneSlot | src/store/index.ts:35-52 | each setter overwrites its own slot, even with undefined, and no other |
| CatalogueStore.ApplyEntriesSlot | src/store/index.ts:8-32 | after the key loop each slot holds the last value its key was given, or is unchanged when its key is absent; unrecognised keys are ignored |
| CatalogueStore.AddStoreSetsGivenSlots | src/store/index.ts:6-32 | a falsy input leaves the store unchanged; otherwise each slot is as in the key loop |
| CatalogueStore.Store.constructor | src/store/index.ts:4 | the store starts with every slot undefined |
| CatalogueStore.Store.AddMasterData | src/store/index.ts:35-37 | only the snapshot slot changes, to the given value |
| CatalogueStore.Store.AddScripIdIndexes | src/store/index.ts:39-41 | only the script-index slot changes, to the given value |
| CatalogueStore.Store.AddDerivativeIndexes | src/store/index.ts:43-45 | only the derivatives-index slot changes, to the given value |
| CatalogueStore.Store.AddIsinCodeIndexes | src/store/index.ts:47-49 | only the ISIN-index slot changes, to the given value |
| CatalogueStore.Store.AddSearchStringIndexes | src/store/index.ts:50-52 | only the search-index slot changes, to the given value |
| CatalogueStore.Store.AddStore | src/store/index.ts:6-32 | the store becomes the reference `addStore` of its old contents |
| CatalogueStore.Store.GetMasterData | src/store/index.ts:54-56 | the stored snapshot, or `{}` when the slot is undefined |
| CatalogueStore.Store.GetScripIndex | src/store/index.ts:58-60 | the stored script index, or `{}` |
| CatalogueStore.Store.GetDerivativeIndex | src/store/index.ts:62-64 | the stored derivatives index, or `{}` |
| CatalogueStore.Store.GetSearchIndex | src/store/index.ts:66-68 | the stored search index, or `{}` |
| CatalogueStore.Store.GetIsinIndex | src/store/index.ts:70-72 | the stored ISIN index, or `{}` |
| Memoize.Find | src/Utils/memoized.ts:27 | `cache.has(key)`: a position holding the key, or none exactly when the key is absent |
| Memoize.TouchMovesToEnd | src/Utils/memoized.ts:27-33 | a hit keeps the same keys, all distinct, puts the hit entry last and keeps the others in their order |
| Memoize.InsertEvictsOldest | src/Utils/memoized.ts:36-43 | a miss appends the new entry; only when the limit is exceeded is the oldest entry evicted; the size stays within the limit and keys stay distinct |
| Memoize.Memoized.constructor | src/Utils/memoized.ts:18-22 | a memoised function starts with an empty cache; the limit defaults to 100 |
| Memoize.Memoized.Call | src/Utils/memoized.ts:24-46 | the result is always `fn(args)`. A hit calls nothing and moves the entry to the most-recent end. A miss calls `fn` once and inserts its result, undefined included, evicting the oldest entry on overflow. The cache stays within its limit |
| SecMaster.SegmentDetailsSplitName | src/secMaster.ts:212-224 | `name.split('_')` gives exactly the exchange, segment and instrument type, in that order. These are `_`-free and join back to the name, and the instrument type is `EQUITY` or `UNDERLYING` exactly for the flat kinds |
| SecMaster.EquityScriptFields | src/secMaster.ts:232-309 | an equity record carries the name's tokens and the row's id, ISIN and underlying |
| SecMaster.UnderlyingScriptFields | src/secMaster.ts:317-388 | an underlying record carries the tokens, the row's id and underlying, and no ISIN |
| SecMaster.DerivativeScriptFields | src/secMaster.ts:396-486 | a leg's record carries the tokens, the leg's id and underlying, the group's symbol and asset class, and no ISIN |
| SecMaster.DecodedEquityRecord | src/secMaster.ts:232-309 | when the segment and row exist, gives a record with exactly the equity layout's properties, exchange, segment and instrument type the segment name's tokens, and the row's script id, ISIN and underlying |
| SecMaster.DecodedUnderlyingRecord | src/secMaster.ts:317-388 | when the segment and row exist, gives a record with exactly the underlying layout's properties, the segment name's tokens, the row's script id and underlying, and no ISIN |
| SecMaster.DecodedDerivativeRecord | src/secMaster.ts:396-486 | when the segment and row exist, gives undefined exactly for a two-element location or a leg past the last; otherwise a record with exactly the leg layout's properties, the segment name's tokens, the leg's script id and underlying, and the group's symbol and asset class |
| SecMaster.Project | src/secMaster.ts:196-201 | the projection has exactly the requested keys the record has, with the record's values |
| SecMaster.DecodeDispatchesOnKind | src/secMaster.ts:181-204 | decoding follows the segment's kind. It throws exactly for an unresolvable location. A non-empty `populate` keeps exactly the requested keys of the full record, and an empty one returns the full record |
| SecMaster.KeepDefinedIsFound | src/secMaster.ts:65-68 | the `map` then `filter` agrees with the front-to-back reference: the found records in the order of the ids |
| SecMaster.KeepDefinedCounts | src/secMaster.ts:57-69 | the lookup throws exactly when one id's lookup throws; it keeps at most one record per id, every record when all are found, none when none is |
| SecMaster.LookupOfUnknownIds | src/secMaster.ts:36-63 | ids the script index lacks give nothing, and a missing id list gives `[]` |
| DerivativeLookup.FirstOtherIsFirst | src/secMaster.ts:137-141 | `filter(...)[0]` is the first id that differs from the script's own, and is undefined when there is none |
| DerivativeLookup.DerivativesForSelectsLists | src/secMaster.ts:145-170 | without an entry the result is undefined; with one, it holds exactly the lists `derivativeType` asks for, each the looked-up ids of that list, and throws exactly when a requested list's lookup throws |
| DerivativeLookup.UnknownScriptGivesEmptyObject | src/secMaster.ts:111-115 | an id the script index lacks gives `{}` |
| DerivativeLookup.NoUnderlyingNoIsinGivesEmptyObject | src/secMaster.ts:119-127 | a record without a truthy underlying and without a truthy ISIN gives `{}`, even an NSE equity |
| DerivativeLookup.NseEquityUsesOwnIdChoice | src/secMaster.ts:119-127 | an NSE equity without a truthy underlying but with a truthy ISIN uses its own id |
| DerivativeLookup.BseUsesOtherListing | src/secMaster.ts:136-142 | a BSE record without a truthy underlying uses the first other id sharing its ISIN, and throws when the ISIN index lacks that ISIN |
| DerivativeLookup.ChooseUnderlyingIntended | src/secMaster.ts:119-142 | corrected choice: an unknown BSE ISIN gives no underlying; wherever the code as written does not throw, the choice is the same |
| DerivativeLookup.GetDerivativeScripsByScripIdIntended | src/secMaster.ts:106-171 | with the corrected choice, wherever the code as written does not throw the result is the same |
| DerivativeLookup.LookupsNeverThrow | src/secMaster.ts:24-69 | when every location of the script index resolves, no lookup by id throws |
| DerivativeLookup.IntendedNeverThrows | src/secMaster.ts:106-171 | on such an index the corrected derivative lookup never throws |
| LookupConsistency.BuiltLocationsResolvable | src/Download/indexes/scriptIdIndex.ts:34-40 | every location the built script index holds names a segment and row of the snapshot |
| LookupConsistency.FlatLocationDecodesToItsRow | src/secMaster.ts:181-204 | a flat row's recorded location decodes to a record carrying that row's id |
| LookupConsistency.LegLocationAsRecorded | src/Download/indexes/scriptIdIndex.ts:36-38 | as written, the location of leg 0 decodes to undefined, and every other leg's location decodes to that leg's record |
| LookupConsistency.LegLocationAsIntended | src/Download/indexes/scriptIdIndex.ts:36-38 | with the corrected location every leg, leg 0 included, decodes to its own record |
| LookupConsistency.LookupFindsLastOccurrence | src/secMaster.ts:24-43 | looking an id up on the built index finds the record of its last occurrence; when that occurrence is leg 0 of a group, the lookup gives undefined |
| LookupConsistency.SentinelIsinNeverIndexed | src/Download/indexes/isinCodeIndex.ts:39-44 | neither sentinel ISIN, `"0"` or `""`, is ever a key of the built ISIN index |
| LookupConsistency.NseEquityUsesOwnId | src/secMaster.ts:119-153 | on the built indexes an NSE equity without a truthy underlying gives `{}` without an ISIN; with one, it gives the derivatives listed under its own id |
| LookupConsistency.ContributingIsinIndexed | src/Download/indexes/isinCodeIndex.ts:30-50 | an equity row with an allow-flag other than `"N"` and a valid ISIN is listed by id under that ISIN in the built ISIN index |
| LookupConsistency.BseTwinSharesDerivatives | src/secMaster.ts:119-153 | on the built indexes, the BSE listing sharing a valid ISIN with an NSE equity (neither with a truthy underlying), whose first other listed id is the NSE id, gives the same derivative lookup result as the NSE id: the derivatives filed under the NSE id |
| LookupConsistency.BuiltIsinLookup | src/secMaster.ts:78-96 | on the built indexes the ISIN lookup never throws, gives `[]` for a missing or sentinel ISIN, and otherwise gives the records found for the ids of the allowed equity rows with that ISIN, in visiting order |
| LookupConsistency.BuiltDerivativesEntry | src/Download/indexes/derivativesIndex.ts:42-84 | the built derivatives index has an entry exactly for the underlyings of tradable legs, holding those legs' ids by list |
| LookupConsistency.BseUnindexedIsinThrows | src/secMaster.ts:136-142 | on the built indexes, a BSE equity without a truthy underlying whose ISIN the ISIN index lacks makes the derivative lookup throw |
| LookupConsistency.IntendedNeverThrowsOnBuiltIndexes | src/secMaster.ts:106-171 | with the correction, no derivative lookup on the built indexes throws |
| StableSort.SortByPermutes | src/Search/SearchWorker.ts:58-62 | each sort pass is a permutation of its input |
| StableSort.SortBySorts | src/Search/SearchWorker.ts:58-62 | each sort pass orders by its key |
| StableSort.SortByKeepsOrderOfTies | src/Search/SearchWorker.ts:58-62 | the sort is stable: elements with equal keys keep their order |
| SearchWorkers.CeilHalf | src/Search/SearchWorker.ts:85-88 | `Math.ceil(x / 2)`: the least integer at least half of `x` |
| SearchWorkers.SubRangesCoverBand | src/Search/SearchWorker.ts:84-96 | the two inclusive sub-ranges start at the band's minimum, share their boundary and reach at least the band's maximum |
| SearchWorkers.SelectMembers | src/Search/SearchWorker.ts:98-108 | a record is in a sub-chunk exactly when it is in the input and its priority (null as 0) is within the range |
| SearchWorkers.SlotStep | src/Search/SearchWorker.ts:98-108 | each record is appended, in input order, to a sub-chunk whose range holds it, creating the sub-chunk on first use |
| SearchWorkers.ChunksSelectByPriority | src/Search/SearchWorker.ts:74-111 | at most 20000 records give one chunk equal to the input; otherwise each of the two chunks holds exactly the records within its sub-range |
| SearchWorkers.InBandRecordIsSearched | src/Search/SearchWorker.ts:84-108 | a record whose priority lies in the band of the worker's index is in some chunk |
| SearchWorkers.LargeBandEdges | src/Search/SearchWorker.ts:98-108 | a priority on the shared boundary lands in both chunks; a null priority, or one outside the sub-ranges, in neither |
| SearchWorkers.RankedOrder | src/Search/SearchWorker.ts:58-62 | the two sorts rearrange the matches so that score descends, then priority ascends, then position in the concatenation ascends |
| SearchWorkers.SearchWorker.constructor | src/Search/SearchWorker.ts:28-37 | the worker keeps its index and the chunks of its records, holes included |
| SearchWorkers.SearchWorker.GetChunks | src/Search/SearchWorker.ts:74-111 | the chunks are the reference chunking of the input by the band of the worker's index |
| SearchWorkers.SearchWorker.SplitBand | src/Search/SearchWorker.ts:84-96 | the `CHUNK_META` loop builds exactly the two reference sub-ranges of the band |
| SearchWorkers.SearchWorker.Distribute | src/Search/SearchWorker.ts:98-108 | after the record loop, each sub-chunk holds exactly the selection of its range, or a hole when that is empty |
| SearchWorkers.SearchWorker.Place | src/Search/SearchWorker.ts:100-107 | one record is appended to every sub-chunk whose range holds its priority and to no other |
| SearchWorkers.SearchWorker.Search | src/Search/SearchWorker.ts:45-65 | the result is the matches of the present chunks, in chunk order, ranked by the two sorts |
| SearchWorkers.SearchWorker.Respond | src/Search/SearchWorker.ts:130-133 | the reply is the ranked matches tagged with the worker's own index |
| SearchManagers.BandKeysEnumerateIndex | src/Search/SearchManager.ts:41 | `Object.values` enumerates the buckets by ascending band key, each once |
| SearchManagers.WorkersGetPositions | src/Search/SearchManager.ts:41-55 | the worker at position `p` gets the `p`-th bucket and index `p`, which is never above that bucket's band |
| SearchManagers.PositionIsBandIff | src/Search/SearchManager.ts:41-55 | every worker's index is its bucket's band exactly when the bands present are 0 to n - 1 |
| SearchManagers.MissingBandShiftsWorker | src/Search/SearchManager.ts:41-53 | as written, with only bands 0 and 3 present, band 3's large bucket goes to index 1 and its worker holds no records at all |
| SearchManagers.ByBandWorkersSearchTheirRecords | src/Search/SearchWorker.ts:86-93 | with each worker given its band key, every record of a built index with a real priority is in a chunk of its worker |
| SearchManagers.ItemsAppend | src/Search/SearchManager.ts:107-112 | the hits of concatenated slots are the concatenated hits, holes skipped |
| SearchManagers.EnrichAppend | src/Search/SearchManager.ts:108-111 | one more hit appends its spread decoded record, or throws if it or an earlier one does |
| SearchManagers.EnrichCrashSticks | src/Search/SearchManager.ts:107-112 | once a decode throws, the flattening throws whatever follows |
| SearchManagers.EnrichFacts | src/Search/SearchManager.ts:104-114 | flattening throws exactly when some hit's location does not resolve; otherwise it has one record per hit, each that hit's spread decoded record |
| SearchManagers.CollectIsReplyFor | src/Search/SearchManager.ts:83-88 | each slot holds the result of the last reply from that worker index, or a hole |
| SearchManagers.ReplyForDistinct | src/Search/SearchManager.ts:86-87 | with one reply per worker, each slot is that worker's result |
| SearchManagers.ArrivalOrderIrrelevant | src/Search/SearchManager.ts:83-92 | with one reply per worker, the slots do not depend on the arrival order |
| SearchManagers.SearchSettlesInWorkerOrder | src/Search/SearchManager.ts:67-96 | when every worker has replied once, the promise settles to the spread decoded hits in worker-index order, whatever order the replies came in |
| SearchManagers.SearchManager.constructor | src/Search/SearchManager.ts:15-24 | the state starts at `INIT`; when the master is loaded it initialises at once |
| SearchManagers.SearchManager.Initialize | src/Search/SearchManager.ts:33-57 | the state becomes `READY` and one worker per bucket is appended, in key order, each told its position |
| SearchManagers.SearchManager.InitializeByBand | src/Search/SearchManager.ts:33-57 | corrected initialisation: each worker is told its bucket's band key |
| SearchManagers.SearchManager.Search | src/Search/SearchManager.ts:67-96 | without initialisation the promise resolves `[]`. Otherwise it settles when the reply count reaches the worker count, to the flattened slots: never with no workers, and a thrown decode leaves it pending |
| SearchManagers.SearchManager.FlattenResult | src/Search/SearchManager.ts:104-114 | the result is the spread decoded hits of every present slot, in slot order |
| SearchManagers.SearchManager.PushSlot | src/Search/SearchManager.ts:108-111 | the inner `forEach` extends the result by one slot's hits |
| SearchManagers.SearchManager.PushHit | src/Search/SearchManager.ts:109-110 | one hit's record is decoded, spread and pushed |

## Left out

- Network and cache I/O are not part of this model: fetching the snapshot and its headers, the browser Cache API, and `src/Utils/Cache/UtilCache.ts`.
- Worker and event plumbing is not modelled: `new Worker`, `postMessage`, `onmessage` dispatch, `addEventListener`, and the download manager. A worker's reply is the value `Respond` returns, and the replies reach `Search` as a sequence in arrival order.
- Concurrency in `search` is not modelled: overlapping queries, the `onmessage` handler being reassigned on every call, and the Promise itself. The settled value is an `Option`, and a decode that throws inside a handler shows as `Crash`.
- `fuzzysort.go` and the scoring function are foreign code with floating-point weights. They become the parameter `go` of type `Matcher`, with integer scores; the 40-result limit belongs to that parameter. The warm-up `fuzzysort.go('', chunk)` of the constructor is left out because it has no effect on state.
- `getSecurityMasterInitializationStatus` is not defined in the store module, so the loaded status is a boolean parameter of the manager's constructor and of `Search`.
- Console output and timing are left out.
- `JSON.stringify` of the argument list is abstracted as an injective `key` function that never gives the empty string, so the `if (firstKey)` test of eviction always passes.
- Memoize.Memoized: `fn` is a pure function fixed at creation. The memoised `getScripByScripId` reads the live store, so its cache is never invalidated when the store changes; the model does not capture that stale-result behaviour.
- The lookup functions call `GetScripByScripId` directly, not through the memoiser. `Memoize.Memoized.Call` proves that memoisation never changes a result.
- JavaScript numbers are modelled as unbounded integers: fractional priorities, scores and prices are not modelled.
- Rows use typed fields only where the core inspects them. Other positions are JSON scalars (`Value`), and rows of the wrong layout are excluded by `WellShaped`, which `Store.ts` promises by type.
- SearchWorkers.SearchWorker.constructor: a large input with an index past the band table makes `_getChunks` throw. This is a precondition rather than a modelled error.
- SearchManagers.SearchManager.Search: replies with a worker index at or past the number of workers cannot occur, because each worker replies with the index it was given. This is a precondition.
- SearchManagers.SearchManager.Initialize: the search index is taken to be keyed by bands 0 to 3, as `getChunkIndex` builds it. This is a precondition (`BandKeyed`).
- SearchManagers.SearchManager.Initialize: only the `init` messages are recorded, not the worker objects themselves.
- Option and leg types that are neither futures nor options cannot occur in the table; `DerivativesIndexing.Step` still models them as creating an empty entry.
- Type-only and constant-only files are used only for their names: `Script.ts`, `IndexHandler.ts`, `SecurityMaster.ts`, `Config.ts`, the worker message types, `EVENTS.ts`, `STORE_KEYS.ts` and `ERROR_MESSAGE.ts`.

## Findings

| source | as written | input that shows it | evidently intended | confidence | as-written member | corrected member |
|---|---|---|---|---|---|---|
| src/Download/indexes/scriptIdIndex.ts:36-38 | `if (derivativeItemIndex)` treats leg index 0 as absent. The first leg of every group is recorded as `[segment, itemIndex]`, and the derivative decoder reads `legs[undefined]` for it (src/secMaster.ts:421-422) | a group whose leg 0 has script id X: `getScripByScripId(X)` returns undefined although X is indexed | every leg is recorded as `[segment, itemIndex, 3, legIndex]`, as the search index does | not executed | LookupConsistency.LegLocationAsRecorded | LookupConsistency.LegLocationAsIntended |
| src/Search/SearchManager.ts:41-53 | each worker is told its position among the non-empty buckets. `SearchWorker.ts:86-93` uses that position to pick the band whose range splits a large bucket | buckets only for bands 0 and 3, band 3 holding over 20000 records with priorities 150001-199999: the second worker splits them by band 1's range and keeps none, so they are never matched | each worker is told its bucket's band key | not executed | SearchManagers.MissingBandShiftsWorker | SearchManagers.ByBandWorkersSearchTheirRecords |
| src/secMaster.ts:136-142 | on BSE, `isinCodeIndex[isinCode].filter(...)` runs even when the ISIN is not a key of the ISIN index | a BSE equity row with a null underlying and ISIN `"0"` (never indexed), or an ISIN whose only rows are flagged `"N"`: `getDerivativeScripsByScripId` throws a TypeError | an unknown ISIN gives no underlying, so the lookup returns undefined | not executed | LookupConsistency.BseUnindexedIsinThrows | LookupConsistency.IntendedNeverThrowsOnBuiltIndexes |
