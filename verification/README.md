# A model of the SubQuery node for Stellar

This project models, in Dafny, how the node turns a ledger number into handler calls, and proves that nothing is
lost, repeated or mixed up on the way:

1. **Fetching Soroban events** with a read-ahead cache that many calls share
   (`Chain`, `Paging`, `EventCache`, `SorobanServer`, `Interleaving`).
2. **Assembling a ledger**: flat lists from Horizon and the RPC are joined into a mutable object graph with clones
   as back-links, and flattened again (`JoinKey`, `LedgerJoin`, `StellarObjects`, `OperationAssembly`,
   `TransactionAssembly`, `LedgerAssembly`, `StellarApi`, `BatchFetch`).
3. **Dispatching** the block to every data source (`Indexer`, `DispatchTrace`).
4. **Choosing ledgers by dictionary**: handler filters are compiled to query entries that must not miss a ledger
   (`Filters`, `QueryKey`, `Dictionary`, `DictionarySoundness`).

`EndToEnd` puts the parts together. Five modules say what the parts do in terms of the records' own fields, letters
and positions, without the functions that the other modules are built from: `JoinLaws` for the tree, `FilterLaws` for
the filters, `QueryLaws` for the compiled query, `TraceOrder` for the dispatches, `BlockLaws` for a fetched block. `Seqs` and `Records` hold sequence lemmas and the fetched records.
`dafny verify dfyconfig.toml` checks the whole project.

## Main results

* **Interleaving safety, with its exact condition.** Any number of `getEvents` calls on one cache, any order of
  steps, a chain that grows between steps: all results of all runs are exact if and only if the client's page limit
  does not exceed the server's own cap (`Interleaving.ExactIffCapCoversLimit`). The code drops the last ledger of a
  page only when the page is as long as its own limit (`soroban.server.ts:41`), although its comment
  (`soroban.server.ts:55`) says that a server may cap pages below that limit; the lemma's other half is a concrete
  run of eight states in which that makes a cached entry incomplete. Calls that page, rather than hit the cache, are
  exact whatever the cap (`Interleaving.MissesAlwaysExact`).
* **Reading ahead happens.** After a call that paged, every later ledger that the last page holds all of has a
  complete entry, unless it had one before, and the requests sent are the given one and those that follow its pages'
  cursors (`SorobanServer.GetEvents`).
* **Assembly.** The block's graph is the join of the fetched lists, each record is attached once or nowhere
  according to its address, all parts of a transaction share one clone of it, everything shares one clone of the
  ledger, clones show what was there when they were taken, and the graph has no cycle. On ids: an effect whose id is
  a padded operation id, a dash and a counter is attached to that operation as often as it was fetched and to no other
  (`BlockLaws.EffectsUnderTheirOperation`).
* **Batches.** For every run of the shared cache, every interleaving, and every time at which the calls finish, block
  k of a batch is the block of ledger k on the chain as it was when the batch began, and all blocks are finished,
  acyclic graphs that can be dispatched one after the other (`BatchFetch.FetchBatch`, `EndToEnd.IndexBlocks`).
* **Dispatch.** Every data source sees exactly the block's lists, in order, and with unique record ids each object
  exactly once (`EndToEnd.ExactlyOnce`); parents come before children; the number of dispatches is
  D·(1 + T + S + O + E + V). The whole trace is determined: it is the list of all keys that the tree gives rise to, in
  increasing order (`TraceOrder.TraceIs`). A transaction is dispatched as a Soroban one if and only if a fetched
  operation with its hash has type `invoke_host_function`, and a block with such a transaction carries all events of
  its ledger (`BlockLaws.SorobanDispatchedIff`, `BlockLaws.SorobanBlockHasEvents`).
* **Dictionary soundness, with its exact condition.** `SorobanTransaction` handlers yield no entry
  (`stellarDictionaryV1.ts:213`), so a non-empty query can miss ledgers they need. It misses none if and only if
  every such handler is covered by a transaction handler for the same account or by an operation handler for all
  `invoke_host_function` operations, and there is no handler of a custom kind, which yields no entry either and is
  taken to accept anything (`DictionarySoundness.SoundIffCovered`). For data sources without such handlers the
  condition holds trivially. The query itself is pinned down letter by letter, and so is the order of its entries
  (`QueryLaws.QueryIs`, `QueryLaws.QueryInOrder`).
* **End to end.** If the query is not empty, the condition above holds, and no entry asks for a ledger, then no
  handler of any data source accepts anything it would be shown of that ledger (`EndToEnd.SkippingIsSafe`).

## What is assumed of the environment

* The RPC answers from an append-only list of events, sorted by ledger and with unique ids, that grows by whole
  ledgers. A page is any run of events from the requested position with at most `limit` and at least
  `min(cap, limit, available)` events; `cap >= 1` is a parameter. So an empty page means that nothing is left, and
  "a page shorter than the limit is exhausted" is the separate assumption `limit <= cap`. A cursor is the position
  it stands for.
* Callers ask for closed ledgers, pass a limit, and pass no filters, as `api.stellar.ts:154-158` does.
* Horizon lists come in non-empty pages of any size and end with an empty one. Transaction hashes are unique within a
  ledger; for effects, operation ids as well. Effect ids are decimal up to the dash: on any other prefix the source's
  `BigInt` throws and the ledger is not assembled, while the model would read such a character as 0.
* The dictionary stores accounts, addresses and types in lower case, and string topics as they are. Lower-casing is
  that of ASCII letters. JSON text is that of `JSON.stringify`, control characters included.

## Model

| member | source | states |
|---|---|---|
| `Chain.ScanIsSlice` | packages/node/src/stellar/soroban.server.ts:28-33 | the scan of a ledger is one contiguous run of the chain, so a paging fetch can be compared with it by position |
| `Chain.ScanStable` | packages/node/src/stellar/soroban.server.ts:97-119 | the events of a closed ledger stay the same however the chain grows |
| `Paging.SplitPage` | packages/node/src/stellar/soroban.server.ts:28-33 | a page that starts inside a ledger splits into that ledger's part and the run behind it |
| `Paging.FullPageSpill` | packages/node/src/stellar/soroban.server.ts:39-46 | dropping the last ledger of a full page leaves whole ledgers only |
| `Paging.ExhaustedPageSpill` | packages/node/src/stellar/soroban.server.ts:47-53 | the spill of a page that reached its bound is whole ledgers as it stands |
| `Paging.KeepIsWhole` | packages/node/src/stellar/soroban.server.ts:39-46 | what is kept for the cache is a run of whole ledgers, if short pages are exhausted |
| `Paging.PageStep` | packages/node/src/stellar/soroban.server.ts:25-73 | one page of any size: a finishing turn holds exactly the ledger's events, a continuing turn moves strictly forward inside the ledger by as much as the cap allows |
| `Paging.GoodTurnStable` | packages/node/src/stellar/soroban.server.ts:25-73 | a turn stays right when the chain grows before it is used |
| `Paging.FinishReadsAhead` | packages/node/src/stellar/soroban.server.ts:39-53 | a finishing turn hands to the cache all events of every later ledger that ends on its page, the last ledger of a full page excepted, whatever the cap |
| `Paging.CallBoundClosed` | packages/node/src/stellar/soroban.server.ts:63-72 | the recursion's request count is at most n/k + 2 |
| `EventCache.EntryAfter` | packages/node/src/stellar/soroban.server.ts:79-94 | the update loop changes each ledger's entry by that ledger's events only, the skipped ledger's not at all, and creates entries only for ledgers with events |
| `EventCache.AddAllById` | packages/node/src/stellar/soroban.server.ts:88-93 | an entry keeps its events in place, gets one for every id, and none twice |
| `EventCache.UpdateIsAhead` | packages/node/src/stellar/soroban.server.ts:75-95 | after the update every ledger that was read ahead has a complete entry, unless it had one before, and no old entry loses anything |
| `EventCache.WholeSelection` | packages/node/src/stellar/soroban.server.ts:75-95 | a run of whole ledgers holds all events of each ledger inside and none of any other |
| `EventCache.UpdateKeepsComplete` | packages/node/src/stellar/soroban.server.ts:75-95 | after an update every entry, old or new, is exactly the scan of its ledger, and the set of entries is known exactly |
| `SorobanServer.SorobanServer.FetchPage` | packages/node/src/stellar/soroban.server.ts:25-69 | one request and its decision, on a chain that may have grown: result exact and all complete later ledgers handed over, or strict progress from the page's cursor within the call bound |
| `SorobanServer.SorobanServer.FetchEventsForSequence` | packages/node/src/stellar/soroban.server.ts:17-73 | the recursion ends, with exactly the ledger's events for any page sizes, within the call bound; each request follows the page before it, and what is read ahead is what the last page holds all of |
| `SorobanServer.SorobanServer.GroupBySequence` | packages/node/src/stellar/soroban.server.ts:28-33 | the grouping keeps order in both groups |
| `SorobanServer.SorobanServer.UpdateEventCache` | packages/node/src/stellar/soroban.server.ts:75-95 | the loop with its early return and id check computes the specified cache |
| `SorobanServer.SorobanServer.FetchAndReadAhead` | packages/node/src/stellar/soroban.server.ts:115-118 | a miss sends the given request and its follow-ups, returns exactly the ledger, and leaves complete entries for the ledgers that the last page holds all of |
| `SorobanServer.SorobanServer.GetEvents` | packages/node/src/stellar/soroban.server.ts:97-119 | a hit returns and deletes its entry without a request; a miss asks for the given ledgers, by default this one only, is exact for any cap, and leaves complete entries for the later ledgers that its last page holds all of; with a covering cap both are exact and the cache stays complete; without a start ledger it fails and changes nothing |
| `Interleaving.StepKeepsInv` | packages/node/src/stellar/soroban.server.ts:97-119 | every step of every call, and every growth of the chain, keeps the invariant of cache and calls |
| `Interleaving.MissesAlwaysExact` | packages/node/src/stellar/soroban.server.ts:28-72 | in every run, a finished call that paged holds exactly its ledger's events, whatever the page sizes |
| `Interleaving.RunsAreSafe` | packages/node/src/stellar/soroban.server.ts:97-119 | with a covering cap, every reachable state has a complete cache and only exact results, hits and repeated requests included |
| `Interleaving.BatchIsExact` | packages/node/src/stellar/api.stellar.ts:383-390 | a batch fetched concurrently gets, at each index, the scan of its own ledger on the chain as it was at the start |
| `Interleaving.RequestsAreBounded` | packages/node/src/stellar/soroban.server.ts:63-72 | at any time of any run no call has sent more than n/k + 2 requests |
| `Interleaving.BadRun` | packages/node/src/stellar/soroban.server.ts:41-46 | for every cap below the limit there is a run whose last state holds a wrong result |
| `Interleaving.ExactIffCapCoversLimit` | packages/node/src/stellar/soroban.server.ts:17-119 | all runs are exact if and only if the limit does not exceed the cap |
| `JoinKey.StripFixes` | packages/node/src/stellar/api.stellar.ts:236-237 | exactly the numerals without superfluous zeros are their own keys |
| `JoinKey.StripIdempotent` | packages/node/src/stellar/api.stellar.ts:236-237 | taking the key of a key changes nothing |
| `JoinKey.StripSeparates` | packages/node/src/stellar/api.stellar.ts:236-237 | two ids share a key exactly if they denote the same number |
| `JoinKey.StripUndoesPadding` | packages/node/src/stellar/api.stellar.ts:236-237 | any zero-padding of a printed number is undone |
| `JoinKey.EffectFoundUnderItsOperation` | packages/node/src/stellar/api.stellar.ts:195-242 | an effect id made of a padded operation id, a dash and a counter is filed under that operation's id and no other |
| `LedgerJoin.AssembleIsJoin` | packages/node/src/stellar/api.stellar.ts:185-288 | the nested operations, effects and events are joins of the fetched lists by hash, id and address |
| `LedgerJoin.OpsConserved` | packages/node/src/stellar/api.stellar.ts:244-250 | an operation is attached as often as fetched if its transaction is listed, else nowhere |
| `LedgerJoin.EventsConserved` | packages/node/src/stellar/api.stellar.ts:185-206 | an event is attached as often as fetched if its hash and index name an operation, else nowhere |
| `LedgerJoin.EffectsConserved` | packages/node/src/stellar/api.stellar.ts:194-242 | an effect is attached as often as fetched if its key names an operation of a listed transaction, else nowhere |
| `JoinLaws.TransactionOperations` | packages/node/src/stellar/api.stellar.ts:244-250 | the operations of a transaction are the fetched ones with its hash, each at its place in the fetched order |
| `JoinLaws.OperationEvents` | packages/node/src/stellar/api.stellar.ts:185-206 | the events of an operation are those with its transaction's hash and its index, in chain order |
| `JoinLaws.OperationEffects` | packages/node/src/stellar/api.stellar.ts:194-242 | the effects of an operation are exactly those whose ids name it, in fetched order |
| `JoinLaws.EffectsByOperation` | packages/node/src/stellar/api.stellar.ts:194-242 | an effect whose id is a padded operation id, a dash and a counter is found under that operation as often as fetched, under no other, and in the tree only if the operation's transaction is listed |
| `StellarObjects.LinksDescend` | packages/node/src/stellar/api.stellar.ts:208-278 | every child link and back-link of a ranked graph leads to a known object of smaller rank |
| `StellarObjects.RankedIsAcyclic` | packages/node/src/stellar/api.stellar.ts:347-370 | no walk along links of a ranked graph returns to its start |
| `OperationAssembly.GroupBy` | packages/node/src/stellar/api.stellar.ts:185-192 | the reduce that fills a record of lists gives, for every key, the items with that key in order |
| `OperationAssembly.WrapOperation` | packages/node/src/stellar/api.stellar.ts:194-216 | a fresh wrapper holds its effects in order, each pointing to one clone of it that was taken before they were attached |
| `OperationAssembly.WrapOperationsForTx` | packages/node/src/stellar/api.stellar.ts:180-217 | operation k of a transaction gets the effects filed under its id and the events of index k; the world of objects stays ranked |
| `TransactionAssembly.AttachTransaction` | packages/node/src/stellar/api.stellar.ts:267-278 | the operation, its effects and its events point to the given clone, and those attached before still do |
| `TransactionAssembly.Fill` | packages/node/src/stellar/api.stellar.ts:280-284 | the transaction's effect and event lists are those of its operations, concatenated in order |
| `TransactionAssembly.WrapTransaction` | packages/node/src/stellar/api.stellar.ts:225-287 | a transaction's wrapper holds the tree of its records, and all parts share one bare clone of it |
| `LedgerAssembly.WrapTransactionsForLedger` | packages/node/src/stellar/api.stellar.ts:219-288 | all transactions are wrapped in order, and each later one leaves the earlier ones as they were |
| `LedgerAssembly.CloneLedger` | packages/node/src/stellar/api.stellar.ts:347-347 | the ledger's deep copy has copies of its events, shares one copy per transaction among them, and has no other list |
| `LedgerAssembly.LinkAll` | packages/node/src/stellar/api.stellar.ts:349-362 | every transaction, operation, effect and event points to the one clone of the ledger |
| `LedgerAssembly.PushAll` | packages/node/src/stellar/api.stellar.ts:364-369 | the block's flat lists are those of the tree |
| `LedgerAssembly.AssembleLedger` | packages/node/src/stellar/api.stellar.ts:332-370 | from fetched lists to the linked graph: the tree is the join, nested and flat views agree, back-links are shared, operation clones have no effects, the ledger clone has unlinked copies of the events only, events without an operation stay unlinked, the graph is ranked |
| `StellarApi.FetchAll` | packages/node/src/stellar/api.stellar.ts:101-151 | the paging loops return the whole list however it is split into non-empty pages |
| `StellarApi.StellarApi.GetAndWrapEvents` | packages/node/src/stellar/api.stellar.ts:153-169 | one fresh unlinked event object for each event of the cached entry or, without one, of the ledger; exact with a sound cache |
| `StellarApi.StellarApi.FetchAndWrapLedger` | packages/node/src/stellar/api.stellar.ts:290-381 | with a sound cache, or no entry, the block carries its ledger's events if any fetched operation has type `invoke_host_function`, and none if none has; otherwise the cached entry's; its graph is as assembled |
| `StellarApi.StellarApi.FetchBlocks` | packages/node/src/stellar/api.stellar.ts:383-390 | one after the other: result i is the block for request i on the chain as it was at the start, with its events exactly if any of its operations invokes a host function, and every block keeps its graph |
| `BatchFetch.FinishedIsExact` | packages/node/src/stellar/soroban.server.ts:97-119 | a finished call, at any time of any run, holds the scan of its ledger on any earlier chain that had closed it |
| `BatchFetch.AnswerIsExact` | packages/node/src/stellar/api.stellar.ts:300-310 | what a block of a concurrent batch is built from: its ledger's events if any operation has type `invoke_host_function`, none otherwise |
| `BatchFetch.FetchBatch` | packages/node/src/stellar/api.stellar.ts:383-390 | for every interleaving: result i is the block for request i on the chain as it was at the start, with its events exactly if any of its operations invokes a host function, and with its finished acyclic graph |
| `Indexer.IndexerManager.IndexTransaction` | packages/node/src/indexer/indexer.manager.ts:160-186 | each data source gets the transaction, and once more as a Soroban one if an operation invokes a host function |
| `Indexer.IndexerManager.IndexBlockData` | packages/node/src/indexer/indexer.manager.ts:127-148 | the nested loops over the heap objects produce the trace of the tree |
| `DispatchTrace.EverythingOnceInOrder` | packages/node/src/indexer/indexer.manager.ts:127-216 | projected to a kind and a data source, the trace is the flat list of that kind, in order; no other kind sees it |
| `DispatchTrace.TraceLength` | packages/node/src/indexer/indexer.manager.ts:127-216 | the number of dispatches is D·(1 + T + S + O + E + V) |
| `DispatchTrace.ParentsComeFirst` | packages/node/src/indexer/indexer.manager.ts:132-147 | before an item is dispatched to anyone, the item around it has been dispatched to every data source |
| `TraceOrder.TraceIs` | packages/node/src/indexer/indexer.manager.ts:127-216 | the trace is exactly the dispatches of all keys, in increasing order: by transaction, operation, then the operation itself before its effects before its events, each to the data sources in turn, a Soroban transaction right after the transaction as such |
| `TraceOrder.DispatchedIff` | packages/node/src/indexer/indexer.manager.ts:127-216 | something is dispatched exactly if the tree has a key for it |
| `Filters.FilterEventProcessor` | packages/node/src/stellar/block.stellar.ts:116-150 | the loop accepts exactly the events that meet address, contract id and each of the first four wanted topics |
| `FilterLaws.NormalizedEqIff` | packages/node/src/utils/string.ts:4-6 | two strings are equal up to case exactly if they have the same length and each position has the same character or the same ASCII letter in another case; nothing equals a missing string |
| `FilterLaws.LowerIsSmall` | packages/node/src/utils/string.ts:4-6 | lower-casing replaces capitals by their small letters, keeps everything else, and leaves no capital |
| `FilterLaws.EventFilterMeans` | packages/node/src/stellar/block.stellar.ts:116-150 | an event is accepted exactly if its contract is the address up to case, its contract id the wanted one, and each of the first four wanted topics stands at its place; what is not given asks for nothing |
| `FilterLaws.AcceptsMeans` | packages/node/src/indexer/indexer.manager.ts:245-307 | each kind accepts items of its own sort only, all of them without a filter, and with one those that have every string asked for |
| `QueryKey.StringifyInjective` | packages/node/src/indexer/dictionary/v1/stellarDictionaryV1.ts:221-223 | the JSON text of a list of conditions determines the list, whatever characters it contains |
| `QueryKey.SortBySorts` | packages/node/src/indexer/dictionary/v1/stellarDictionaryV1.ts:222-222 | sorting by field orders the conditions and keeps all of them |
| `QueryKey.SortedUnique` | packages/node/src/indexer/dictionary/v1/stellarDictionaryV1.ts:222-222 | with distinct fields there is only one sorted arrangement |
| `QueryKey.KeyIdentifies` | packages/node/src/indexer/dictionary/v1/stellarDictionaryV1.ts:220-223 | keys are equal exactly if the entities are and the conditions are permutations of each other |
| `QueryKey.UniqKeepsFirst` | packages/node/src/indexer/dictionary/v1/stellarDictionaryV1.ts:218-224 | the result is the subsequence of first occurrences: distinct keys, none lost |
| `Dictionary.EventFilterToQueryEntry` | packages/node/src/indexer/dictionary/v1/stellarDictionaryV1.ts:99-152 | the loop that pushes conditions builds the specified event entry |
| `Dictionary.BuildDictionaryQueryEntries` | packages/node/src/indexer/dictionary/v1/stellarDictionaryV1.ts:162-225 | the nested loops with early returns compute the compiled query |
| `QueryLaws.QueryIs` | packages/node/src/indexer/dictionary/v1/stellarDictionaryV1.ts:162-225 | the entries are exactly those that the handlers ask for: the right entity, and one condition for each wanted string, in small letters except for topics |
| `QueryLaws.QueryInOrder` | packages/node/src/indexer/dictionary/v1/stellarDictionaryV1.ts:162-225 | the entries stand in the order in which the handlers they come from stand in the project |
| `DictionarySoundness.TransactionEntryMeans` | packages/node/src/indexer/dictionary/v1/stellarDictionaryV1.ts:32-48 | a stored transaction meets the entry exactly if it meets the filter up to letter case |
| `DictionarySoundness.OperationEntryMeans` | packages/node/src/indexer/dictionary/v1/stellarDictionaryV1.ts:50-73 | the same for operations |
| `DictionarySoundness.EffectEntryMeans` | packages/node/src/indexer/dictionary/v1/stellarDictionaryV1.ts:75-98 | the same for effects |
| `DictionarySoundness.EventEntryMeans` | packages/node/src/indexer/dictionary/v1/stellarDictionaryV1.ts:125-151 | a stored event meets the entry exactly if the event filter without its contract id accepts it |
| `DictionarySoundness.DedupKeepsMeaning` | packages/node/src/indexer/dictionary/v1/stellarDictionaryV1.ts:218-224 | deduplication selects exactly the same ledgers |
| `DictionarySoundness.NonEmptyIff` | packages/node/src/indexer/dictionary/v1/stellarDictionaryV1.ts:167-216 | there is a query exactly if every handler has a filter that the dictionary can work with and some handler is of a kind with entries; in all other cases it is empty |
| `DictionarySoundness.PermutingKeepsUses` | packages/node/src/indexer/dictionary/v1/stellarDictionaryV1.ts:167-168 | permuting data sources, or handlers within them, leaves the handlers with their addresses as they are |
| `DictionarySoundness.GivesUpIffUnconditional` | packages/node/src/indexer/dictionary/v1/stellarDictionaryV1.ts:172-212 | the compiler gives up exactly where the entry would have no conditions, except for an event filter with topics of which none is wanted |
| `DictionarySoundness.OrderDoesNotMatter` | packages/node/src/indexer/dictionary/v1/stellarDictionaryV1.ts:162-225 | the same handlers in another order give a query with the same keys, equally often |
| `DictionarySoundness.Counterpart` | packages/node/src/indexer/dictionary/v1/stellarDictionaryV1.ts:162-225 | ... each entry has a counterpart with the same entity and the same conditions in some order |
| `DictionarySoundness.OrderKeepsSelection` | packages/node/src/indexer/dictionary/v1/stellarDictionaryV1.ts:162-225 | ... and both queries select the same ledgers |
| `DictionarySoundness.OwnEntrySuffices` | packages/node/src/indexer/dictionary/v1/stellarDictionaryV1.ts:172-212 | a handler with an entry misses no ledger with an item that its filter accepts |
| `DictionarySoundness.UncoveredMisses` | packages/node/src/indexer/dictionary/v1/stellarDictionaryV1.ts:213-213 | an uncovered Soroban transaction handler misses a ledger, given explicitly |
| `DictionarySoundness.CustomMisses` | packages/node/src/indexer/dictionary/v1/stellarDictionaryV1.ts:213-213 | a custom handler, which may accept anything, misses a ledger whatever the query |
| `DictionarySoundness.SoundIffCovered` | packages/node/src/indexer/dictionary/v1/stellarDictionaryV1.ts:162-225 | a non-empty query misses nothing if and only if every Soroban transaction handler is covered and there is no custom handler |
| `EndToEnd.SeenIsOffered` | packages/node/src/indexer/indexer.manager.ts:127-216 | whatever a data source is shown is an item of the fetched ledger, of the right kind |
| `EndToEnd.SkippingIsSafe` | packages/node/src/indexer/dictionary/v1/stellarDictionaryV1.ts:162-225 | without custom handlers and with Soroban transaction handlers covered, a ledger that no entry asks for has nothing that any handler would accept |
| `EndToEnd.EventsDispatched` | packages/node/src/indexer/indexer.manager.ts:143-145 | a block's event is dispatched as often as listed if it addresses an operation, else never |
| `EndToEnd.AllEventsDispatched` | packages/node/src/indexer/indexer.manager.ts:143-145 | if all events address operations, those dispatched are a permutation of the block's |
| `EndToEnd.DispatchFollowsBlock` | packages/node/src/indexer/indexer.manager.ts:127-148 | for a fetched block, each data source sees the block's transactions, operations and effects in order |
| `EndToEnd.ListsAreDistinct` | packages/node/src/stellar/api.stellar.ts:349-370 | with unique hashes, ids and records, no object stands twice in a list of the block |
| `EndToEnd.ExactlyOnce` | packages/node/src/indexer/indexer.manager.ts:127-216 | each data source gets each listed item exactly once under its kind, and nothing else |
| `EndToEnd.IndexLedger` | packages/node/src/indexer/indexer.manager.ts:127-148 | fetching and dispatching one ledger appends exactly the trace of its block, which has its ledger's events exactly if an operation invokes a host function |
| `EndToEnd.IndexBlocks` | packages/node/src/indexer/indexer.manager.ts:127-148 | the blocks of a fetched batch are still the graphs that were built, and dispatching them appends their traces in order |
| `BlockLaws.SorobanDispatchedIff` | packages/node/src/indexer/indexer.manager.ts:173-184 | a transaction is dispatched as a Soroban one if and only if one of its operations, wherever it stands, has type `invoke_host_function`; on records: a fetched operation with its hash |
| `BlockLaws.SorobanBlockHasEvents` | packages/node/src/stellar/api.stellar.ts:304-310 | a block with a transaction dispatched as a Soroban one carries all events of its ledger |
| `BlockLaws.EffectsUnderTheirOperation` | packages/node/src/stellar/api.stellar.ts:194-242 | the objects: an effect of operation `id` is attached to that operation as often as fetched and to no other, and the block lists it exactly if the operation's transaction is fetched |

## Left out

- BatchFetch.FetchBatch: the Horizon requests of a batch are not steps of the run; they and the assembly of a block touch nothing that another call can see.
- LedgerAssembly.LinkAll: the source links and pushes in one loop per transaction; here all transactions are linked by one loop and pushed by the next (`LedgerAssembly.PushAll`), which gives the same final graph.
- StellarObjects.RankedIsAcyclic: event objects never get an `operation` link, because the source never sets one; the rank order has room for it.
- Filters.FilterEventProcessor: topics are decoded beforehand; the decoder of contract values is foreign code.
- Dictionary.EventFilterToQueryEntry: the branch for an array of options depends on a command-line value and has no caller here.
- Block filters by modulo and timestamp: a block handler makes the query empty, so what it accepts does not bear on the results.
- DictionarySoundness.SoundIffCovered: what the processors of custom kinds accept is outside the claim; such handlers are taken to accept anything, and the condition rules them out.
- `latestLedger` in responses, RPC and Horizon errors and the rewritten messages for them, pruned ledgers, retries, and a node without a Soroban client.
- The base indexer's `indexData`, sandboxes and processors, block size and header formatting, HTTP, SDK and XDR.
- Lower-casing outside ASCII, and record keys that clash with built-in object properties.
