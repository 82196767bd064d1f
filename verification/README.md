# Coin catalog reconciliation

A model, in Dafny, of the synchronisation engine in `services/coin.service.js`.
That engine fills a coin catalog, keyed by coin name, from two providers:

- **Snapshot sync (LiveCoinWatch).** `getLiveCoinWatchData` requests the ranked
  coin list as 20 pages of 100 (offsets 0 to 1900). For each item it updates
  the seven market fields of an existing coin in place, or inserts a new coin
  with rank, name, symbol and those fields. The first item that throws ends
  its page, and the page's `catch` clears the five-minute interval that
  re-runs the whole snapshot.
- **Enrichment sync (IntoTheBlock).** `updateIntotheBlockCoins` maps the
  reference list to its symbols. `callIntotheBlockAPI` then takes the symbols
  strictly in order. For each one it requests
  `https://api.intotheblock.com/<lower-cased symbol>/financial?since=…&until=…`,
  builds the enrichment document (`price` stored as `priceList`, the four
  history blobs defaulted to `[]` when falsy), upserts it by the returned
  name and waits 3000 ms. It has no `catch`: the first failure ends the run.

Modules:

- `Optional` and `JsonValues` (json.dfy): the JavaScript values involved,
  with truthiness and `|| []`.
- `Coins` (coins.dfy): the coin document and the catalog. The catalog is a
  class holding a map from name to document, with `FindOne` and `Save`.
- `SnapshotReconcile` (snapshot.dfy): page layout, the item upsert, one page
  and one full run, as functions. Lemmas relate them to a name-by-name
  reference definition.
- `SnapshotSync` (snapshot_sync.dfy): the interval schedule as a function.
  Class `LiveCoinWatch` holds the closure state (`intervalActive`) and its
  loops; each loop is proved against the functions.
- `Enrichment` (enrichment.dfy): request building, the enrichment document,
  the upsert, and the sequential run as a function over any per-symbol step
  (`RunSteps`), instantiated by `EnrichRun`. The loop methods are proved
  against it.

The providers are parameters: a total function from the request to its answer.
A failing catalog round trip (lookup or save) is a flag on that answer.

Points where the code's behaviour departs from its own comments, or is easy
to misread; the model follows the code:

- The comment at line 97 says `fetchAllData` runs every 5 minutes. But the
  `catch` of every page calls `clearInterval` (line 79), so the first failing
  page stops all later re-runs for good. As long as no page fails, the
  interval keeps re-running (`ScheduleTiming`).
- The comment at line 147 speaks of a one-second delay. The code waits
  3000 ms (line 148), after every completed symbol, the last included:
  `sleptMs == 3000 * completed`.
- Within a page, the first item that throws leaves the loop for the page's
  `catch`, so the items after it are not processed.
- An existing record is updated with `findOneAndUpdate(filter, coin)`
  (line 141). Whether that sets the given keys or replaces the record
  depends on document-store settings the code does not show. The model
  takes it as an `UpdatePolicy` parameter, and every property is proved for
  both policies.

## Model

| member | source | states |
|---|---|---|
| JsonValues.OrEmpty | services/coin.service.js:122-125 | `x \|\| []` is always truthy: it is `x` when `x` is truthy and the empty array otherwise |
| Coins.CoinStore.FindOne | services/coin.service.js:41 | finds a document iff one is stored under the name, and the found document carries that name |
| Coins.CoinStore.Save | services/coin.service.js:53 | saving replaces exactly the document of that name and keeps the catalog keyed by name |
| SnapshotReconcile.PageLayout | services/coin.service.js:84 | the 20 offsets are 0, 100, …, 1900; the pages they request (each with `limit: 100`) tile positions 0..1999, each position in exactly one page |
| SnapshotReconcile.ApplyItemSpec | services/coin.service.js:41-73 | an existing name gets the seven market fields and keeps every other field; an unseen name adds one record with name, rank, symbol (from `code`), the market fields and no enrichment field; other records are unchanged |
| SnapshotReconcile.SurvivingPrefix | services/coin.service.js:39-74 | the count of items before the first one that throws (store failure, or `item.delta` null/undefined): all of them succeed, and the next one, if any, throws |
| SnapshotReconcile.ApplyItemsAt | services/coin.service.js:39-74 | after a sequence of upserts, a name is present iff it was before or some item carries it; its record is the old (or first-inserted) one with the market fields of the latest item of that name |
| SnapshotReconcile.ApplyItemsIsReconciled | services/coin.service.js:39-74 | sequential upserts equal the name-by-name reference map `Reconciled` |
| SnapshotReconcile.ApplyItemsKeys | services/coin.service.js:41-73 | upserts only add names, exactly those of the items |
| SnapshotReconcile.ApplyItemsWellKeyed | services/coin.service.js:41-73 | upserts keep every record under its own name |
| SnapshotReconcile.ApplyItemsIdempotent | services/coin.service.js:39-74 | re-applying the same items leaves the catalog unchanged |
| SnapshotReconcile.ApplyItemsAppend | services/coin.service.js:39-74 | upserting `p + q` equals upserting `p`, then `q` |
| SnapshotReconcile.PageStopsAtFirstFailure | services/coin.service.js:39-80 | a page writes exactly the items before its first throwing item, and reports a failure iff such an item exists |
| SnapshotReconcile.RunPagesIsSurvivors | services/coin.service.js:85-86 | a full run writes exactly the surviving items of every page, in page order; a failing page does not stop the others |
| SnapshotReconcile.RunPagesFails | services/coin.service.js:77-80 | a run reports a failure (clears the interval) iff some page's request or one of its items fails |
| SnapshotReconcile.FetchAllIdempotent | services/coin.service.js:85-93 | a second run on the same provider answers leaves the catalog as the first left it |
| SnapshotReconcile.FetchAllKeys | services/coin.service.js:85-93 | a run adds exactly the names of the written items, removes none, and keeps the catalog keyed by name |
| SnapshotReconcile.EverySurvivorIsWritten | services/coin.service.js:39-86 | every surviving item of any page is in the catalog afterwards, with the market fields of the latest surviving item of its name |
| SnapshotSync.ScheduleTiming | services/coin.service.js:95-98 | runs start at 0 ms and then every 300000 ms; every run but the last succeeded; the interval is active iff the last run succeeded, and then every tick has run |
| SnapshotSync.ScheduleStopIsSticky | services/coin.service.js:77-80 | once a run has cleared the interval, no later tick runs or changes anything |
| SnapshotSync.LiveCoinWatch.FetchCoinData | services/coin.service.js:20-81 | one page leaves the catalog as `ProcessPage` says, and clears the interval iff the page fails |
| SnapshotSync.LiveCoinWatch.UpsertItems | services/coin.service.js:39-74 | the item loop leaves the catalog as `ProcessAttempts` says and returns whether an item threw |
| SnapshotSync.LiveCoinWatch.FetchAllData | services/coin.service.js:84-93 | the 20 pages leave the catalog as `FetchAll` says, and the interval is cleared iff some page failed |
| SnapshotSync.LiveCoinWatch.GetLiveCoinWatchData | services/coin.service.js:9-99 | the immediate run and the interval ticks leave catalog, start times and interval state as `Schedule` says |
| Enrichment.ToLower | services/coin.service.js:117 | lower-casing keeps the length and maps each character through ASCII lower-casing |
| Enrichment.RequestUrlCaseInsensitive | services/coin.service.js:117 | two symbols give the same URL iff they agree after lower-casing |
| Enrichment.LowerPartOfUrl | services/coin.service.js:117 | the symbol part of the URL holds no upper-case letter |
| Enrichment.SymbolsOf | services/coin.service.js:163-172 | the symbol list exists iff no entry is null/undefined; it then has one element per entry, that entry's `symbol` |
| Enrichment.EnrichedCoin | services/coin.service.js:121-137 | the document carries the returned name and rank, `price` under `priceList`, each history field or `[]` when falsy, and no snapshot field |
| Enrichment.EnrichUpsertSpec | services/coin.service.js:127-146 | an upsert by the returned name adds at most that name; the record gets the seven enrichment keys; with key-setting updates its snapshot fields survive, with replacement the record is the document; an unseen name gets the document; other records are unchanged |
| Enrichment.RunCompletes | services/coin.service.js:115-149 | a run completes a prefix of the symbols, and succeeds iff that prefix is all of them |
| Enrichment.RunFailureKeepsPrefix | services/coin.service.js:115-149 | after a failure, the catalog equals what a successful run over the completed symbols leaves, and the next symbol's step throws |
| Enrichment.RunAbortIgnoresRest | services/coin.service.js:115-149 | whatever follows the failing symbol never influences the run |
| Enrichment.EnrichRunRequests | services/coin.service.js:115-119 | requests go out in list order, one per string symbol, up to and including the failing symbol and none after it |
| Enrichment.EnrichStepWrites | services/coin.service.js:127-146 | a completed symbol adds the name its answer returned and leaves every record under another name as it was |
| Enrichment.EnrichRunWrites | services/coin.service.js:115-149 | a run's key set is the old keys plus the names returned for the completed symbols, and every record under any other name is unchanged |
| Enrichment.EnrichRunLatestWrite | services/coin.service.js:115-146 | the answer to a completed symbol is in the catalog after the run, under its returned name, with the seven enrichment keys of its document, unless a later completed symbol returned the same name |
| Enrichment.EnrichRunKeepsRecords | services/coin.service.js:140-146 | enrichment never deletes a record and keeps the catalog keyed by name |
| Enrichment.CallIntotheBlockAPI | services/coin.service.js:105-150 | the loop leaves catalog, request list, completed count and outcome as `EnrichRun` says, and sleeps 3000 ms per completed symbol |
| Enrichment.EnrichSymbol | services/coin.service.js:117-146 | one loop iteration before the pause behaves as `EnrichStep`, and a failing one leaves the catalog unchanged |
| Enrichment.UpsertEnriched | services/coin.service.js:127-146 | the lookup followed by update-or-insert leaves the catalog as `EnrichUpsert` says |
| Enrichment.UpdateIntotheBlockCoins | services/coin.service.js:153-176 | a null/undefined entry fails the run before any write; otherwise the run with the fixed 2023-03-07..2023-03-08 window happens, and "finished" is logged iff every symbol went through |

## Left out

- The HTTP calls (`axios.post`, `axios.get`), the API keys and the headers. Provider answers are function parameters; the snapshot request body is modelled, and so is the enrichment URL.
- The document store's internals and its validation. The catalog is a map from name to document. Whether a lookup or save throws is an input flag.
- `Promise.all` concurrency in `fetchAllData`. Pages are processed one after another in offset order. So the model does not capture interleaved writes across pages, or the lost-update race on a name that two pages share. Nor does it capture two pages that both get `null` from `findOne` (line 41) for the same unseen name and both insert it (line 71), leaving two records of that name. `WellKeyed` and the keyed-by-name ensures of `FetchAllKeys` assume the pages run one after another.
- Interleaving of the two pipelines on the shared catalog. A snapshot run (started by `setInterval`, line 98) and an enrichment run (started by `cron.schedule`, line 180) are taken never to interleave: each awaits the store at every step (lines 41, 53, 71 and 127, 141, 144). So a concurrent first insert of one name by both, which could leave two records of that name, is not modelled. `Valid`, `WellKeyed` and the keyed-by-name ensures of `FetchAllKeys` and `EnrichRunKeepsRecords` hold under that assumption.
- Overlapping interval runs. Each tick's run is taken to finish before the next tick.
- Real time. Timer ticks and the 3000 ms pauses are counted, not awaited.
- The node-cron schedule in `getIntheBlockCoinData` (lines 179-186). It only calls `updateIntotheBlockCoins` at fixed hours, and the unhandled rejection it may leave is a process-level effect.
- Reading and parsing `data/intotheblock.json`. `UpdateIntotheBlockCoins` receives the parsed entries. A file that fails to read or parse is not modelled.
- `console.log` output, apart from whether the enrichment "finished" line is reached.
- Floating-point behaviour (NaN, rounding). Provider numbers are copied verbatim and modelled as reals.
- ToLower: covers ASCII letters only, not full Unicode case mapping.
- Provider names that are not strings. Item and response names are taken to be strings.
- Varying answers for a repeated symbol. The enrichment provider and the store outcome together form one function of the request. So two list entries that agree up to case always get the same answer and the same store outcome within a run. A run where the first occurrence completes and a later one's `axios.get` (line 119) or store call (lines 127, 141, 144) throws is not modelled.
- A `response.data` that is not an object in the enrichment request. The model folds it into a failed request.
- The route layer (`routes/coin.js`) and the coin model schema file, which is not part of this model.
