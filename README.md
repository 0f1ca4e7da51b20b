# Ambassador year in review: a Dafny model

This project models the logic of the 2025 ambassador "year in review" site and
of the offline scripts that prepare its data.

- **Top-products job.** It is shared by the `POST /api/process-ambassador`
  handler and by the queue consumer. It works in these steps:
  - Read the ambassador's distinct referred order ids.
  - Fetch at most 50 orders from Shopify, in batches of 10.
  - Expand the line items into one unit per purchased piece.
  - Tally the units by display name, keeping the first truthy image.
  - Sort by count (stable) and keep three.
  - Store the ranking in `top_models` and drive the `processing_status` row.
- **Page.** The year-in-review page has a screen cursor, a data loader and a
  bounded poller for the top products.
- **Offline scripts:**
  - `generate-data.js` keeps the active affiliates, computes percentiles,
    archetypes and the email lookup.
  - `fetch-shopify-products.js` groups referrals by order and fetches the
    orders not fetched yet.
  - `fetch-product-images.js` builds the unique display names, the base-title
    search and the image cache.
  - `add-top-models.js` builds each email's product list, ranks it and updates
    the records.
  - `sync-uuids-to-hubspot.js` counts referrals, picks the qualifying
    ambassadors and classifies each HubSpot update.
  - `migrate-to-d1.js` and `import-referrals-to-d1.js` build SQL scripts.
  - `generate-links.js` builds a CSV file.

Every network call is a function parameter (an oracle):
- Shopify order fetches and product searches;
- HubSpot updates;
- the page's `fetch`.

The D1 database is the class `Store.Database`. Its fields are the tables and a
counter of issued statements. An `outage` map says which statement throws and
with what message. Loops, counters and dictionaries the source mutates are
methods with loops over that state. Each method is proved equal to a
specification function, and the source's promises are lemmas about those
functions.

Where this model and the source disagree, the model follows the source. The
quirks kept on purpose:
- The handler writes `processing` before it looks the ambassador up.
- A `failed` job is run again.
- The consumer never consults or creates a status row.
- Cached image misses are fetched again.
- The CSV does not double quotes; see Findings.

Modules:
- `Common`: options, ASCII lower-casing, JavaScript `trim`, and plain objects
  as insertion-ordered `Dict`s.
- `Ranking` and `StableSort`: tally, first occurrences, and the stable
  descending sort.
- `Quoting`: quote doubling and reading back.
- `Shopify`: the order payload.
- `Aggregation`: the helpers copied into both functions files.
- `Store`, `TopModelsJob`, `ProcessAmbassador`, `QueueConsumer`: the handlers.
- `YearInReview`: the page.
- One module per script: `GenerateData`, `FetchShopifyProducts`,
  `FetchProductImages`, `AddTopModels`, `SyncUuidsToHubspot`, `MigrateToD1`,
  `ImportReferralsToD1`, `GenerateLinks`.
- `SqlText`: what the two SQL scripts share.

## Model

| member | source | states |
|---|---|---|
| Common.TrimStartSpec | sync-uuids-to-hubspot.js:28 | `trimStart` leaves a suffix that does not start with white space, and everything it cut was white space |
| Common.TrimStartSuffix | sync-uuids-to-hubspot.js:28 | what `trimStart` leaves is a suffix of the text |
| Common.TrimStartStops | sync-uuids-to-hubspot.js:28 | what `trimStart` leaves is empty or starts with a non-space |
| Common.TrimStartCut | sync-uuids-to-hubspot.js:28 | every character `trimStart` removes is white space |
| Common.TrimEndSpec | sync-uuids-to-hubspot.js:28 | `trimEnd` leaves a prefix that does not end with white space, and everything it cut was white space |
| Common.TrimKeeps | sync-uuids-to-hubspot.js:28 | every character of the trimmed text occurs in the text |
| Common.TrimEnds | sync-uuids-to-hubspot.js:28 | the trimmed text is empty or starts and ends with a non-space |
| Common.NormalizeEmailSpec | add-top-models.js:33 | a `toLowerCase().trim()` email has no ASCII capital, no space at either end, and normalising it again changes nothing |
| Common.NormalizedShape | add-top-models.js:33 | a normalised email has no ASCII capital and no space at either end |
| Common.LowerFixed | add-top-models.js:33 | lower-casing text without capitals changes nothing |
| Common.TrimmedFixed | add-top-models.js:33 | trimming text with no space at either end changes nothing |
| Common.NatToString | migrate-to-d1.js:37 | the decimal text of `index + 1` is non-empty, all digits, with no leading zero |
| Common.NatToStringValue | migrate-to-d1.js:37 | the decimal text of `index + 1` denotes `index + 1` |
| Common.Dict.Put | add-top-models.js:35-37 | `obj[k] = v` on a plain object: a new key goes last, an existing key keeps its place, and the value map is updated |
| Common.EmptyDict | add-top-models.js:29 | `{}` is a well-formed object with no keys |
| Common.PutAll | generate-data.js:82-83 | successive writes from `{}` give a well-formed object |
| Common.PutAllSnoc | generate-data.js:82-83 | one more write is one more `Put` |
| Common.PutAllDistinct | generate-data.js:82 | with distinct keys the object holds the keys in write order, each with its own value |
| Common.PutAllKeys | generate-data.js:82 | with distinct keys the object's key order is the write order |
| Common.PutAllLast | generate-data.js:83 | every written key is present, a key written last at position i holds value i, and every value comes from some write of its key |
| Common.PutAllHas | generate-data.js:83 | every written key is present |
| Common.PutAllLastValue | generate-data.js:83 | a key's value is the one from its last write |
| Common.PutAllWitness | generate-data.js:83 | every key holds the value of some write of that key |
| Ranking.FirstIndexIsFirst | ambassador-yir/functions/api/process-ambassador.js:85 | the first index of a present name holds it, and no earlier index does |
| Ranking.OccurrencesPositive | ambassador-yir/functions/api/process-ambassador.js:85 | a name is counted at least once exactly when it occurs |
| Ranking.OccurrencesAppend | ambassador-yir/functions/api/process-ambassador.js:84-85 | counting over two runs adds the counts |
| Ranking.FirstOccurrencesSpec | ambassador-yir/functions/api/process-ambassador.js:91 | the tally's keys are exactly the names, each once, in order of first appearance |
| Ranking.FirstOccurrencesSnoc | ambassador-yir/functions/api/process-ambassador.js:85 | one more name adds a key exactly when the name is new |
| Ranking.EntriesSpec | ambassador-yir/functions/api/process-ambassador.js:91 | `Object.entries(productCounts)` holds each name with its count, in first-seen order |
| Ranking.SortedEntriesSpec | ambassador-yir/functions/api/process-ambassador.js:91-92 | the sorted entries are the tally's entries, by count descending, ties in first-seen order |
| Ranking.TopThreeOrdered | ambassador-yir/functions/api/process-ambassador.js:91-93 | the top three: min(3, distinct names) entries, positive occurrence counts, non-increasing, ties by first appearance, no name twice |
| Ranking.TopThreeComplete | ambassador-yir/functions/api/process-ambassador.js:91-93 | a name left out means three entries were kept, each counted at least as often |
| StableSort.InsertPermutes | ambassador-yir/functions/api/process-ambassador.js:92 | inserting into the sorted run permutes by adding one element |
| StableSort.SortPermutes | ambassador-yir/functions/api/process-ambassador.js:92 | the sort is a permutation |
| StableSort.InsertDescending | ambassador-yir/functions/api/process-ambassador.js:92 | inserting into a descending run keeps it descending |
| StableSort.SortDescending | ambassador-yir/functions/api/process-ambassador.js:92 | the sort result is in descending key order |
| StableSort.InsertKeepsTies | ambassador-yir/functions/api/process-ambassador.js:92 | inserting an earlier element keeps equal keys in input order |
| StableSort.SortKeepsTies | ambassador-yir/functions/api/process-ambassador.js:92 | the sort is stable: equal keys keep their input order |
| Quoting.ReadBody | generate-links.js:15 | reading a quoted body consumes input |
| Quoting.DoubleSpec | migrate-to-d1.js:25 | doubled text is a valid escape and collapses back to the text |
| Quoting.PlainEscaped | migrate-to-d1.js:25 | text without the quote is its own escape |
| Quoting.ReadEscaped | migrate-to-d1.js:25 | a valid escape followed by a closing quote reads back as the collapsed text, the rest left over |
| Shopify.ImageOf | ambassador-yir/functions/api/process-ambassador.js:65 | the image is the truthy variant image, else the truthy featured image, else null |
| Shopify.NamingSchemesAgree | ambassador-yir/functions/api/process-ambassador.js:66-69 | the handler's display name equals the scripts' stored name for every variant title except the empty one |
| Shopify.ScriptOrderRefinesHandlerOrder | fetch-shopify-products.js:74-89 | an order the script accepts is the one the handler reads; a reply with GraphQL `errors` is accepted by the handler only |
| Aggregation.ExtractProducts | ambassador-yir/functions/api/process-ambassador.js:56-78 | the units are the order's units: nothing without `lineItems`, `quantity` copies per kept item |
| Aggregation.ExtractedCounts | ambassador-yir/functions/api/process-ambassador.js:60-75 | each name gets exactly the summed quantities of the kept items bearing it |
| Aggregation.ExtractedUnitsOrigin | ambassador-yir/functions/api/process-ambassador.js:62-72 | every unit comes from an item with `variant.product`, with that item's name and image |
| Aggregation.Tally | ambassador-yir/functions/api/process-ambassador.js:84-89 | `productCounts` has one key per distinct name in first-seen order with its count; `productImages` holds the first truthy image of each name |
| Aggregation.TallyName | ambassador-yir/functions/api/process-ambassador.js:85 | `(productCounts[n] \|\| 0) + 1` tallies one more name |
| Aggregation.ImageUnit | ambassador-yir/functions/api/process-ambassador.js:86-88 | a truthy image is stored only for a name without one |
| Aggregation.TallyStep | ambassador-yir/functions/api/process-ambassador.js:86-88 | the first image after one more unit |
| Aggregation.CalculateTopModels | ambassador-yir/functions/api/process-ambassador.js:80-100 | the result is the ranked list of the units |
| Aggregation.FirstImageSpec | ambassador-yir/functions/api/process-ambassador.js:86-88 | the image is the first truthy URL among the name's units, null when none has one |
| Aggregation.FirstImageNone | ambassador-yir/functions/api/process-ambassador.js:98 | a null image means no unit of that name has a truthy URL |
| Aggregation.FirstImageSome | ambassador-yir/functions/api/process-ambassador.js:86-88 | an image is the truthy URL of the name's first unit that has one |
| Aggregation.TopModelsRanked | ambassador-yir/functions/api/process-ambassador.js:91-99 | at most three entries, as many as there are distinct names up to three, ranked 1..k; each count is the name's occurrence total and positive; no name twice; counts non-increasing; ties in first-seen order |
| Aggregation.TopModelsComplete | ambassador-yir/functions/api/process-ambassador.js:91-93 | a name left out of the ranking means three were kept, each counted at least as often |
| Aggregation.FetchBatch | ambassador-yir/functions/api/process-ambassador.js:190-205 | a batch's units are those of its successful fetches, in id order |
| Aggregation.FetchOrders | ambassador-yir/functions/api/process-ambassador.js:186-211 | the first 50 ids in consecutive batches of 10, a pause between batches only, units of the successful fetches in id order |
| Aggregation.ConcatMapSplit | ambassador-yir/functions/api/process-ambassador.js:200-205 | fetching ids in two runs gives the same units as in one |
| Aggregation.ChunksFlatten | ambassador-yir/functions/api/process-ambassador.js:189-190 | the batches partition the ids, in order |
| Aggregation.ChunksSizes | ambassador-yir/functions/api/process-ambassador.js:189-190 | there are ceil(n/10) batches of 1..10 ids, all but the last exactly 10 |
| Aggregation.FetchBounds | ambassador-yir/functions/api/process-ambassador.js:186-187 | at most five batches are fetched |
| Aggregation.FetchedUnitsPlain | ambassador-yir/functions/api/process-ambassador.js:200-205 | fetched units carry plain-key names when the catalogue does |
| Aggregation.FailedFetchesContributeNothing | ambassador-yir/functions/api/process-ambassador.js:201 | orders whose fetch gives null contribute no unit |
| Store.Update | ambassador-yir/functions/api/process-ambassador.js:164-171 | an `UPDATE` never adds a row, changes only the named row, and sets it when it exists |
| Store.DistinctOrderIdsSpec | ambassador-yir/functions/api/process-ambassador.js:157-160 | `SELECT DISTINCT order_id` gives exactly the ids referred by the email, each once |
| Store.OrderIdsOfSpec | ambassador-yir/functions/api/process-ambassador.js:157-160 | the ids selected are those of the rows for the email |
| Store.FirstOccurrencesDistinct | ambassador-yir/functions/api/process-ambassador.js:158 | `DISTINCT` results hold no id twice |
| Store.Database.constructor | ambassador-yir/functions/api/process-ambassador.js:119 | the store starts with the given tables and outages |
| Store.Database.SelectStatus | ambassador-yir/functions/api/process-ambassador.js:122-125 | reads the status row, or throws the statement's error |
| Store.Database.MarkProcessing | ambassador-yir/functions/api/process-ambassador.js:135-141 | `INSERT OR REPLACE` creates or overwrites the row as `processing` |
| Store.Database.SelectEmail | ambassador-yir/functions/api/process-ambassador.js:144-147 | reads the ambassador's email, or throws |
| Store.Database.SelectOrderIds | ambassador-yir/functions/api/process-ambassador.js:157-160 | reads the distinct order ids of the email, or throws |
| Store.Database.SetStatus | ambassador-yir/functions/api/process-ambassador.js:164-171 | `UPDATE` sets an existing row's status, or throws |
| Store.Database.InsertTopModel | ambassador-yir/functions/api/process-ambassador.js:218-224 | appends one `top_models` row, or throws |
| TopModelsJob.SaveTopModels | ambassador-yir/functions/api/process-ambassador.js:217-235 | one INSERT per ranked model, then the `completed` update, stopping at the first error |
| TopModelsJob.MarkFailedIn | ambassador-yir/functions/queue-consumer.js:207-218 | the `failed` update with the message; its own error is swallowed |
| TopModelsJob.ProcessIn | ambassador-yir/functions/api/process-ambassador.js:182-235 | fetch, rank and save, as the run's specification says |
| TopModelsJob.InsertRowsSpec | ambassador-yir/functions/api/process-ambassador.js:217-225 | INSERTs append all rows when none throws, else the rows before the first that throws, whose error comes back; other tables unchanged |
| TopModelsJob.InsertRowsFrame | ambassador-yir/functions/api/process-ambassador.js:217-225 | INSERTs touch only `top_models` |
| TopModelsJob.InsertRowsDone | ambassador-yir/functions/api/process-ambassador.js:217-225 | with no error every row is appended, earlier rows kept |
| TopModelsJob.InsertRowsThrew | ambassador-yir/functions/api/process-ambassador.js:217-225 | on an error the rows before it stay and that error comes back |
| TopModelsJob.SaveOutcome | ambassador-yir/functions/api/process-ambassador.js:217-235 | saving issues at least one statement and keeps the status rows; it succeeds exactly when none of its statements threw, and a failure carries the error of its last statement |
| TopModelsJob.SaveWithoutOutage | ambassador-yir/functions/api/process-ambassador.js:217-235 | with no error every ranked row is appended after the old ones and the row becomes `completed` |
| TopModelsJob.RunKeepsStatusRows | ambassador-yir/functions/api/process-ambassador.js:214-248 | a run, and its `failed` fallback, neither create nor delete status rows |
| TopModelsJob.FailureRecorded | ambassador-yir/functions/api/process-ambassador.js:236-248 | on an error the row becomes `failed` with that error's message, rows inserted before it stay |
| TopModelsJob.RowsOfSpec | ambassador-yir/functions/api/process-ambassador.js:217-224 | the rows are for the ambassador, at most three, ranked 1..k, with positive counts |
| ProcessAmbassador.OnRequestPost | ambassador-yir/functions/api/process-ambassador.js:102-263 | the reply, the job handed to `waitUntil` and the tables are the handler's specification |
| ProcessAmbassador.RunBackground | ambassador-yir/functions/api/process-ambassador.js:181-249 | the tables after the background task are its specification |
| ProcessAmbassador.MissingUuid | ambassador-yir/functions/api/process-ambassador.js:111-116 | no uuid gives 400, no job, and the store is not touched |
| ProcessAmbassador.AlreadyStarted | ambassador-yir/functions/api/process-ambassador.js:122-132 | `processing` or `completed` is returned as is, with no write and no job |
| ProcessAmbassador.Replies | ambassador-yir/functions/api/process-ambassador.js:111-262 | every reply is one of the handler's, and a job starts exactly with the `processing` reply |
| ProcessAmbassador.ProcessingBeforeLookup | ambassador-yir/functions/api/process-ambassador.js:134-154 | an unknown uuid gets 404 but keeps a new `processing` row |
| ProcessAmbassador.FailedIsRetried | ambassador-yir/functions/api/process-ambassador.js:127 | a `failed` row is not short-circuited: the job starts again or completes at once |
| ProcessAmbassador.NoReferrals | ambassador-yir/functions/api/process-ambassador.js:162-177 | no referred order: the row becomes `completed`, the reply has no top models, no job, no rows |
| ProcessAmbassador.JobStarted | ambassador-yir/functions/api/process-ambassador.js:157-180 | a job is for the requested uuid over its distinct referred ids, with the row `processing` |
| ProcessAmbassador.BackgroundCompletes | ambassador-yir/functions/api/process-ambassador.js:214-235 | with no error the ranked rows are appended and the row becomes `completed` |
| QueueConsumer.Message.constructor | ambassador-yir/functions/queue-consumer.js:106 | a message carries its uuid and no call yet |
| QueueConsumer.Message.Acknowledge | ambassador-yir/functions/queue-consumer.js:201 | `ack()` is recorded on the message |
| QueueConsumer.Message.AskRetry | ambassador-yir/functions/queue-consumer.js:221 | `retry()` is recorded on the message |
| QueueConsumer.HandleMessage | ambassador-yir/functions/queue-consumer.js:106-222 | the tables follow the consumer's specification, and the message gets exactly one call, the one that specification names |
| QueueConsumer.Queue | ambassador-yir/functions/queue-consumer.js:103-224 | messages are handled in batch order whatever each one does, and each gets exactly one `ack()` or `retry()` |
| QueueConsumer.UnknownAmbassadorAcked | ambassador-yir/functions/queue-consumer.js:118-122 | an unknown ambassador is acknowledged with nothing written |
| QueueConsumer.NoReferralsAcked | ambassador-yir/functions/queue-consumer.js:130-144 | with no referrals the row is set `completed` and the message acknowledged |
| QueueConsumer.NeverCreatesStatusRows | ambassador-yir/functions/queue-consumer.js:110-198 | a whole batch never creates or deletes a status row |
| QueueConsumer.ConsumeKeepsStatusRows | ambassador-yir/functions/queue-consumer.js:130-215 | one message never creates or deletes a status row |
| QueueConsumer.MarkFailedKeeps | ambassador-yir/functions/queue-consumer.js:207-218 | the `failed` fallback never creates a status row |
| QueueConsumer.CompletedIsReprocessed | ambassador-yir/functions/queue-consumer.js:110-201 | a `completed` ambassador is ranked again, new rows appended after the old, then acknowledged |
| QueueConsumer.ErrorsRetry | ambassador-yir/functions/queue-consumer.js:110-222 | `ack()` exactly when no statement the message issued threw; on `retry()` the statement that threw is the last before the catch's `failed` update, all earlier ones went through, and that update, when it goes through, stores `failed` with the thrown message on the existing row |
| QueueConsumer.AckedWhenQuiet | ambassador-yir/functions/queue-consumer.js:110-201 | `ack()` if and only if every statement of the message went through |
| QueueConsumer.RetriedAfterThrow | ambassador-yir/functions/queue-consumer.js:203-222 | a `retry()` follows the first statement that threw, and the catch records its message |
| QueueConsumer.RetryFirst | ambassador-yir/functions/queue-consumer.js:113-221 | a throwing email SELECT goes straight to the catch, which records its message |
| QueueConsumer.RetrySecond | ambassador-yir/functions/queue-consumer.js:125-221 | a throwing order-id SELECT goes to the catch, which records its message |
| QueueConsumer.RetryCompleted | ambassador-yir/functions/queue-consumer.js:130-221 | a throwing `completed` update with no referrals goes to the catch, which records its message |
| QueueConsumer.RetryRun | ambassador-yir/functions/queue-consumer.js:146-222 | a run that throws goes to the catch, which records the message of the statement that threw |
| QueueConsumer.ConsumeRun | ambassador-yir/functions/queue-consumer.js:110-222 | with both SELECTs through and referrals found, the message ends with the run inside the `try` |
| QueueConsumer.RunAcked | ambassador-yir/functions/queue-consumer.js:146-201 | a run is acknowledged exactly when none of its statements threw |
| QueueConsumer.RunRetried | ambassador-yir/functions/queue-consumer.js:146-222 | a run that ends in `retry()` threw at its last statement and the catch records that message |
| QueueConsumer.SaveAfterSelects | ambassador-yir/functions/queue-consumer.js:146-198 | after both SELECTs, the save succeeds exactly when every statement went through, and a failure carries the error of its last statement |
| QueueConsumer.RunThrew | ambassador-yir/functions/queue-consumer.js:203-222 | a step that threw at its last statement ends, after the catch, as a recorded retry |
| QueueConsumer.CatchRecorded | ambassador-yir/functions/queue-consumer.js:203-222 | the catch after a statement that threw, all earlier ones through, records a retry with that statement's message |
| QueueConsumer.RecoverRecords | ambassador-yir/functions/queue-consumer.js:207-221 | the catch issues exactly one statement, stores `failed` with the message on an existing row when that update goes through, and asks for `retry()` |
| YearInReview.NextIndex | ambassador-yir/src/pages/YearInReview.jsx:118-122 | the index stays below the number of screens and moves one on before the last |
| YearInReview.PollBounded | ambassador-yir/src/pages/YearInReview.jsx:88-116 | at most 60 fetches, one per firing; past 60 firings the interval is cleared |
| YearInReview.PollAttempts | ambassador-yir/src/pages/YearInReview.jsx:90-99 | at most 61 firings are counted and at most 60 of them fetch; a poller past 60 attempts is inactive, and an active one has counted every firing |
| YearInReview.TickAdoptsOnlyFinished | ambassador-yir/src/pages/YearInReview.jsx:107-111 | data changes only to a `ready` or `none` payload, and polling stops only then or at the limit |
| YearInReview.TickSkips | ambassador-yir/src/pages/YearInReview.jsx:101-114 | a thrown fetch, a non-ok reply or an unfinished status costs one attempt and changes nothing else |
| YearInReview.LoadOutcomes | ambassador-yir/src/pages/YearInReview.jsx:38-86 | data or error, never both; polling only on the production path for a `loading` payload |
| YearInReview.Page.constructor | ambassador-yir/src/pages/YearInReview.jsx:28-32 | the page starts on screen 0, loading, no data, no error, no poller |
| YearInReview.Page.NextScreen | ambassador-yir/src/pages/YearInReview.jsx:118-122 | the index moves as `NextIndex` says |
| YearInReview.Page.ResetView | ambassador-yir/src/pages/YearInReview.jsx:124-126 | the index becomes 0 and nothing else changes |
| YearInReview.Page.StartPolling | ambassador-yir/src/pages/YearInReview.jsx:88-93 | the interval is set with no attempt made |
| YearInReview.Page.Tick | ambassador-yir/src/pages/YearInReview.jsx:93-115 | one firing moves the poller as `TickPoll` says |
| YearInReview.Page.LoadAmbassadorData | ambassador-yir/src/pages/YearInReview.jsx:38-86 | loading ends and the screen stays; the error flag is set on a failed load; loaded data replaces the old; a fresh poller starts only when the load asks for it, otherwise the poller is untouched |
| GenerateData.ActiveAmbassadors | generate-data.js:12 | every row with an order or a click, as often as it occurs, and no other |
| GenerateData.Rank | generate-data.js:15-17 | each sorted copy is a permutation of the active list in descending key order |
| GenerateData.FindIndex | generate-data.js:20 | the first position with the id, or -1 exactly when there is none |
| GenerateData.PercentileRange | generate-data.js:21 | `Math.round((1 - i/n) * 100)` is the rounding of 100(n - i)/n, lies in 0..100, and is 100 at index 0 |
| GenerateData.PercentileMonotone | generate-data.js:21 | a later position never has a higher percentile |
| GenerateData.PercentileOrder | generate-data.js:19-22 | in a descending list with distinct ids, a higher key never gets a lower percentile, and the first entry gets 100 |
| GenerateData.ConvertsRate | generate-data.js:25 | the rate exceeds 0.1 exactly when orders exceed a tenth of the clicks; with no clicks it is 0 |
| GenerateData.ArchetypeRegions | generate-data.js:24-35 | each archetype's region of the cascade, both directions; revenue of at least 90 is always the Revenue Machine |
| GenerateData.Overall | generate-data.js:67 | the overall rank is the larger of the revenue and orders percentiles |
| GenerateData.BestMonth | generate-data.js:37-44 | "2025" without a last order, else the formatted date |
| GenerateData.ProfileRanks | generate-data.js:52-71 | every rank lies in 0..100, and the top earner is 100 overall and a Revenue Machine |
| GenerateData.ProfileValues | generate-data.js:50-80 | one profile per active affiliate |
| GenerateData.EmailKeys | generate-data.js:83 | one lower-cased email per active affiliate |
| GenerateData.GenerateProfiles | generate-data.js:12-84 | the profiles and the lookup are those of the active list and its three rankings |
| GenerateData.AddProfiles | generate-data.js:50-84 | the `forEach` writes `ambassadorProfiles` and `emailToUUID` as specified |
| GenerateData.ProfilesSpec | generate-data.js:82 | with distinct uuids, one profile per active affiliate under its uuid, in list order |
| GenerateData.LookupSpec | generate-data.js:83 | every lower-cased email is a key, the last affiliate with that email wins, and every value is a uuid of an affiliate with that email |
| GenerateData.LookupHas | generate-data.js:83 | every active affiliate's lower-cased email is a key |
| GenerateData.LookupLast | generate-data.js:83 | an email holds the uuid of the last affiliate with that email |
| GenerateData.LookupWitness | generate-data.js:83 | each key holds the uuid of an affiliate with that lower-cased email |
| GenerateData.LookupFindsProfile | generate-data.js:82-83 | the uuid the lookup gives names a profile whose lower-cased email is the key |
| FetchShopifyProducts.ExtractRecords | fetch-shopify-products.js:93-118 | one record per line item with a product; nothing without `lineItems` |
| FetchShopifyProducts.RecordsOfSpec | fetch-shopify-products.js:93-118 | exactly one record per item whose `variant.product` is set, in item order: the item at position k gives the record at the number of such items before it; there are no other records; the variant title "Default Title" is never stored; the image is a truthy URL or null |
| FetchShopifyProducts.RecordsCount | fetch-shopify-products.js:93-118 | there are as many records as items carrying a product |
| FetchShopifyProducts.RecordsPrefix | fetch-shopify-products.js:93-118 | the records of a prefix of the items are a prefix of the records |
| FetchShopifyProducts.RecordsPositions | fetch-shopify-products.js:93-118 | the item at position k, when it carries a product, gives the record at the number of such items before it |
| FetchShopifyProducts.RecordsOrigin | fetch-shopify-products.js:93-118 | every record is the record of some item carrying a product, with a stored title and a truthy or null image |
| FetchShopifyProducts.StoredVariantTitleSpec | fetch-shopify-products.js:108 | the stored variant title is empty exactly for "Default Title" or an empty title, else the title |
| FetchShopifyProducts.GroupStep | fetch-shopify-products.js:138-147 | one usable row keeps `orderMap` grouped |
| FetchShopifyProducts.GroupByOrder | fetch-shopify-products.js:133-149 | `orderMap` holds one entry per distinct normalised id, in first-seen order, each entry that id's info |
| FetchShopifyProducts.GroupKeys | fetch-shopify-products.js:139 | a row adds a key exactly when its id is new |
| FetchShopifyProducts.InfoSnoc | fetch-shopify-products.js:139-147 | a new id starts with the row's email and name; a known id adds the email if new |
| FetchShopifyProducts.EmailsAbsent | fetch-shopify-products.js:139-147 | an id without rows has no emails and no name |
| FetchShopifyProducts.InfoOfSpec | fetch-shopify-products.js:139-147 | an entry's emails are exactly those of the id's rows; its name is the first row's |
| FetchShopifyProducts.EmailsOfSpec | fetch-shopify-products.js:142-146 | the email set is the union over the id's rows |
| FetchShopifyProducts.FirstNameSpec | fetch-shopify-products.js:140-144 | the order name is that of the id's first row |
| FetchShopifyProducts.ToProcess | fetch-shopify-products.js:165 | exactly the orders not already stored |
| FetchShopifyProducts.FetchRemaining | fetch-shopify-products.js:174-211 | every successful order is stored under its id; `completed` counts them, and `completed + failed` equals the orders processed |
| FetchShopifyProducts.FetchOne | fetch-shopify-products.js:175-201 | one order is stored and counted as completed, or counted as failed |
| FetchShopifyProducts.FetchedSnoc | fetch-shopify-products.js:180-201 | one more order adds its stored record when its fetch succeeds |
| FetchShopifyProducts.FetchedSpec | fetch-shopify-products.js:180-188 | each stored order is a processed order under its own id, with its records and emails, and every successful order is stored |
| FetchShopifyProducts.StoreAllKeeps | fetch-shopify-products.js:184 | an order stored before and not fetched again keeps its record |
| FetchShopifyProducts.OrdersOf | fetch-shopify-products.js:164 | one order per distinct id |
| FetchShopifyProducts.ProcessReferrals | fetch-shopify-products.js:121-225 | grouping, the resume filter, then the fetch loop, with its counters |
| FetchProductImages.Query | fetch-product-images.js:59 | the search text starts with `title:"` and ends with a quote |
| FetchProductImages.EscapeStart | fetch-product-images.js:59 | the escaped title never starts with a bare quote |
| FetchProductImages.EscapedQuotes | fetch-product-images.js:59 | every quote of the escaped title follows a backslash |
| FetchProductImages.EscapeRoundTrip | fetch-product-images.js:59 | reading the escape back gives the title |
| FetchProductImages.BaseTitleSpec | fetch-product-images.js:142 | the base title is the prefix before the first " - ", or the whole name |
| FetchProductImages.BaseTitlePrefix | fetch-product-images.js:142 | the base title is a prefix of the name |
| FetchProductImages.BaseTitleClean | fetch-product-images.js:142 | the base title contains no " - " |
| FetchProductImages.BaseTitleStops | fetch-product-images.js:142 | the base title is the whole name or stops at a " - " |
| FetchProductImages.BaseTitleAt | fetch-product-images.js:142 | the name up to its first separator is its base title |
| FetchProductImages.BaseTitleOfFullName | fetch-product-images.js:106-108 | a display name splits back into its product title unless the title holds " -" |
| FetchProductImages.BaseOfPlain | fetch-product-images.js:142 | a name without " - " is its own base title |
| FetchProductImages.ImageFrom | fetch-product-images.js:73-90 | a URL comes only from an ok reply without `errors` |
| FetchProductImages.UniqueProducts | fetch-product-images.js:102-111 | the unique set is every display name once, in first-seen order |
| FetchProductImages.AddNames | fetch-product-images.js:105-110 | an order's names are added to the set in order |
| FetchProductImages.ToFetch | fetch-product-images.js:123 | exactly the unique names without a truthy cached value |
| FetchProductImages.MissesRefetched | fetch-product-images.js:123 | a name cached as null, or not cached, is fetched again |
| FetchProductImages.ToFetchDistinct | fetch-product-images.js:123 | no name is fetched twice |
| FetchProductImages.FetchImages | fetch-product-images.js:140-172 | the cache after the loop, with `fetched` the found URLs and `fetched + failed` the names tried |
| FetchProductImages.FetchAllSpec | fetch-product-images.js:140-152 | every fetched name is cached as a URL or null; other entries unchanged |
| FetchProductImages.CacheProductImages | fetch-product-images.js:97-186 | the cache after fetching exactly the unique names without a truthy cached image; `fetched` counts the URLs found, and `fetched + failed` the names tried |
| FetchProductImages.CachedUrlsKept | fetch-product-images.js:123 | a truthy cached URL is never replaced |
| AddTopModels.PushProducts | add-top-models.js:40-50 | each product's piece is pushed `quantity` times, products in order |
| AddTopModels.CollectedAbsent | add-top-models.js:31-52 | an email never pushed to has no pieces |
| AddTopModels.CollectedSnoc | add-top-models.js:42 | one more push extends only its own email's list |
| AddTopModels.BuildStep | add-top-models.js:35-50 | one more push keeps `ambassadorProducts` built |
| AddTopModels.BuildKeys | add-top-models.js:35-37 | a push adds a key exactly for a new email |
| AddTopModels.BuildValue | add-top-models.js:35-50 | a push appends its pieces to its email's list |
| AddTopModels.BuildAmbassadorProducts | add-top-models.js:29-52 | one list per email pushed to, in first-push order, each holding that email's pieces |
| AddTopModels.CreditOrder | add-top-models.js:32-51 | every email of an order is credited with the order's pieces |
| AddTopModels.ExpandCounts | add-top-models.js:40-50 | the expanded pieces hold each name as often as the products' quantities say |
| AddTopModels.UniformCounts | add-top-models.js:32-51 | an email credited k times with the same pieces holds k copies of each |
| AddTopModels.CreditedCounts | add-top-models.js:31-52 | each order gives every email credited with it `quantity` units of each product |
| AddTopModels.PushEmailsSpec | add-top-models.js:31-37 | the emails with a list are exactly the orders' normalised emails |
| AddTopModels.ListedSnoc | add-top-models.js:31-33 | an email is listed by the orders exactly when an earlier order or the last lists it |
| AddTopModels.CountPieces | add-top-models.js:68-73 | `productCounts` has one key per distinct name in first-seen order, with its count |
| AddTopModels.TopProducts | add-top-models.js:76-83 | the tally sorted, cut to three, images from the cache |
| AddTopModels.ModelsForSpec | add-top-models.js:76-83 | at most three, counts are totals and non-increasing, ties by first appearance, image from the cache or null, empty exactly without pieces |
| AddTopModels.AssignTopModels | add-top-models.js:60-92 | the data and counters after every entry, in order |
| AddTopModels.AssignEntry | add-top-models.js:61-91 | one entry's effect on the data and counters |
| AddTopModels.AddTopModelsToData | add-top-models.js:29-92 | the list building, then the assignments |
| AddTopModels.CollectedPlain | add-top-models.js:42-48 | credited pieces carry plain-key names when the products do |
| AddTopModels.CollectedOrigin | add-top-models.js:31-52 | every credited piece is the piece of a product of some order |
| AddTopModels.CollectedOfOrder | add-top-models.js:40-50 | a piece from pushes of one order's pieces is one of them |
| AddTopModels.ExpandOrigin | add-top-models.js:40-50 | every expanded piece is some product's piece |
| AddTopModels.SkippedUntouched | add-top-models.js:61-65 | an email without a uuid, or a uuid without a record, changes nothing |
| AddTopModels.KnownAmbassador | add-top-models.js:86-91 | a known ambassador with pieces gets its ranking and counts as updated; without pieces only `noProductsCount` grows |
| AddTopModels.AssignAllSpec | add-top-models.js:60-92 | no record is added or removed; a record changes only to a non-empty ranking; counters never fall, and each entry adds at most one |
| SyncUuidsToHubspot.Emails | sync-uuids-to-hubspot.js:28 | one normalised email per row |
| SyncUuidsToHubspot.CountReferrals | sync-uuids-to-hubspot.js:26-32 | the tally is the counts after every row |
| SyncUuidsToHubspot.ReferralCountsSpec | sync-uuids-to-hubspot.js:26-32 | the keys are the non-empty emails that occur, each mapped to its number of rows |
| SyncUuidsToHubspot.Qualify | sync-uuids-to-hubspot.js:37-47 | each kept record carries a normalised email with a positive count |
| SyncUuidsToHubspot.QualifyMembers | sync-uuids-to-hubspot.js:37-47 | an entry qualifies exactly when a record with its uuid, normalised email and name is kept |
| SyncUuidsToHubspot.ClassifySpec | sync-uuids-to-hubspot.js:79-90 | 200 succeeds, 404 is not found, another status is not found exactly when its body says "not found", a request error fails |
| SyncUuidsToHubspot.ContainsAfter | sync-uuids-to-hubspot.js:84 | text with no 'n' in front of the body adds no "not found" |
| SyncUuidsToHubspot.StatusPrefixPlain | sync-uuids-to-hubspot.js:84 | the `HTTP <status>: ` prefix has no 'n' |
| SyncUuidsToHubspot.SyncAll | sync-uuids-to-hubspot.js:99-138 | the counters are the tally of the outcomes |
| SyncUuidsToHubspot.TallySum | sync-uuids-to-hubspot.js:106-131 | each ambassador lands in exactly one counter; they sum to the list length |
| SqlText.EscapeSqlSpec | migrate-to-d1.js:23-26 | `''` for a falsy value; otherwise quotes are doubled so that collapsing gives `String(x)` back |
| SqlText.BareLength | import-referrals-to-d1.js:30 | bare text runs to the first comma |
| SqlText.ReadValue | import-referrals-to-d1.js:29-30 | reading a value consumes input |
| SqlText.BareRead | import-referrals-to-d1.js:30 | a safe bare value reads back whole |
| SqlText.ValueRead | import-referrals-to-d1.js:29-30 | a readable value reads back as its meaning |
| SqlText.ValuesRoundTrip | import-referrals-to-d1.js:29-30 | a VALUES list of readable values reads back value by value |
| SqlText.IntTextSafe | migrate-to-d1.js:53 | a decimal number is safe to write bare |
| SqlText.NumberOrZeroSafe | migrate-to-d1.js:42-45 | `x \|\| 0` of a numeric value is safe to write bare |
| SqlText.ColumnRead | migrate-to-d1.js:41-45 | a column that reads back gives its expected value |
| SqlText.RowRoundTrip | migrate-to-d1.js:41-45 | a row of readable columns reads back column by column |
| MigrateToD1.AppendTopModels | migrate-to-d1.js:49-53 | one `top_models` INSERT per model, ranks in list order |
| MigrateToD1.RenderEntry | migrate-to-d1.js:37-56 | comment, INSERT, and the model rows plus a blank line when the list is non-empty |
| MigrateToD1.Migrate | migrate-to-d1.js:12-71 | header and `BEGIN TRANSACTION`, one block per entry in order, then `COMMIT` and the verification queries |
| MigrateToD1.AmbassadorInsertReadsBack | migrate-to-d1.js:28-45 | the ambassador INSERT reads back as 18 columns: uuid, each text (empty when falsy), each number (0 when falsy) |
| MigrateToD1.TopModelInsertReadsBack | migrate-to-d1.js:50-52 | a model row reads back as uuid, rank + 1, escaped name and count |
| MigrateToD1.CommentBreaksOut | migrate-to-d1.js:37 | a name with a line break ends the raw comment early |
| ImportReferralsToD1.ImportReferrals | import-referrals-to-d1.js:13-42 | header and `BEGIN TRANSACTION`, one INSERT per row in order, then `COMMIT` and the verification queries |
| ImportReferralsToD1.ReferralInsertReadsBack | import-referrals-to-d1.js:22-30 | a referral INSERT reads back as trimmed id, name, normalised email, date, three numbers (0 when falsy) and customer |
| ImportReferralsToD1.ReferralExpected | import-referrals-to-d1.js:22-30 | what the referral columns mean |
| ImportReferralsToD1.EmailNormalised | import-referrals-to-d1.js:25 | the stored email is already normalised |
| GenerateLinks.Link | generate-links.js:14 | the link is the base URL, "/" and the uuid |
| GenerateLinks.WriteLinks | generate-links.js:10-16 | the header, then one row per lookup entry in order; no file when a uuid has no record |
| GenerateLinks.LinksCsvSpec | generate-links.js:10-16 | the file exists exactly when every uuid has a record, and starts with the header |
| GenerateLinks.LinkRowReadsBack | generate-links.js:15 | a row without quotes in it reads back as name, email and link |
| GenerateLinks.PlainRecord | generate-links.js:15 | without quotes the record as written equals the RFC 4180 record and reads back |
| GenerateLinks.QuoteInNameBreaksRecord | generate-links.js:15 | the name `a"b` gives a record that does not read back |
| GenerateLinks.RecordRoundTrip | generate-links.js:15 | with quotes doubled every record reads back as its fields |
| GenerateLinks.ReadLastField | generate-links.js:15 | an escaped last field reads back |
| GenerateLinks.ReadNextField | generate-links.js:15 | an escaped field followed by a comma reads back before the rest |

## Left out

- Network calls are oracle parameters: Shopify order fetches and product searches, HubSpot updates, the page's `fetch`. D1 statements are `Store.Database` methods whose failures come from an `outage` map.
- Timing and concurrency are not modelled: `setTimeout` pauses, `setInterval`, `Promise.all` fan-out and `waitUntil`. Batches and ticks are sequential. The race between two first views is out of reach of a sequential model.
- Reading spreadsheets, JSON files and `.env`, writing output files, `process.exit` and console output are left out. The scripts start from the parsed rows and end with what they would write.
- Progress saves every 100 orders or 50 images and ETA reports are left out. They use clock time and floating point and do not change the results.
- GenerateData.Percentile: `Math.round((1 - i/n) * 100)` is computed on exact rationals, not IEEE doubles.
- GenerateData.ConvertsRate: the 0.1 threshold is the exact rational, not the double nearest to it.
- GenerateData.BestMonth: the locale date format is a function parameter.
- GenerateData.GenerateProfiles: the `uuidv4()` values are an input sequence.
- GenerateData.GetPercentile requires a non-empty list. The script only calls it with a list that holds the affiliate; an empty one would give `Infinity`.
- GenerateData.ProfilesSpec requires distinct uuids, which random v4 uuids give in practice.
- `toLowerCase` is modelled on ASCII letters only.
- The GraphQL `lineItems(first: 10)` limit is applied by Shopify, not by the code, so it is not modelled.
- `productType` and `vendor` are copied through unread, so they are not modelled.
- Store.DistinctOrderIds: SQL leaves `SELECT DISTINCT` order unspecified; the model takes first-occurrence order.
- A throw from `orderId.trim()` on a non-string id is not modelled; ids are strings.
- Emails, uuids and names are strings. The throw of `data.email.toLowerCase()` on a non-string email in `sync-uuids-to-hubspot.js` is not modelled.
- Plain-object key order for array-index keys and inherited `Object.prototype` names is not modelled. The members below require plain keys instead:
  - Aggregation.CalculateTopModels requires names that are neither array indices nor `Object.prototype` member names. Those would enumerate in numeric order or read inherited members.
  - AddTopModels.BuildAmbassadorProducts, AddTopModels.CountPieces, AddTopModels.TopProducts, AddTopModels.AssignTopModels, AddTopModels.AssignEntry and AddTopModels.AddTopModelsToData require plain-key emails and product names, for the same reason.
  - TopModelsJob.ProcessIn, ProcessAmbassador.RunBackground, QueueConsumer.HandleMessage and QueueConsumer.Queue require a catalogue whose product names are plain keys.
  - SyncUuidsToHubspot.CountReferrals requires that no email is an `Object.prototype` member name. Such a name would read an inherited function as the count.
- NaN keys, which would break the descending sort, are not modelled. Counts are natural numbers. Revenue is a real in `generate-data.js`.
- MigrateToD1.AmbassadorInsertReadsBack, ImportReferralsToD1.ReferralInsertReadsBack and SqlText.NumberOrZero: a numeric SQL cell is `Cell.Number`, which holds an integer. Fractional revenue, commission and sales values, such as `1234.56` written by `String(x)`, are not modelled in the two SQL scripts.
- YearInReview.Page.LoadAmbassadorData: a second `loading` load starts a second `setInterval` while the first keeps running, because the effect on `uuid` at `ambassador-yir/src/pages/YearInReview.jsx:34-36` returns no cleanup. The model keeps one poller, replaced by each such load. It does not capture two live intervals, the older one adopting the payload, or more than 60 fetches in total.
- The 100 ms pause between HubSpot updates in `sync-uuids-to-hubspot.js` is not modelled.
- Sample printing and final statistics in `add-top-models.js` and `generate-links.js` are console output and are not modelled.
- MigrateToD1.AmbassadorInsertReadsBack and ImportReferralsToD1.ReferralInsertReadsBack hold only for numbers written without a comma and uuids without a quote. The scripts write both unescaped, so other values give SQL that does not read back.

## Findings

| source | as written | input that shows it | evidently intended | confidence | as-written member | corrected member |
|---|---|---|---|---|---|---|
| generate-links.js:15 | each field is wrapped in double quotes, but quotes inside it are not doubled | an ambassador named `a"b`: the record `"a"b","e","l"` closes the first field after `a` | double each embedded quote, as section 2, rule 7 of RFC 4180 requires, so every record reads back as its fields | not executed | GenerateLinks.QuoteInNameBreaksRecord | GenerateLinks.RecordRoundTrip |

`GenerateLinks.WriteLinks` keeps the file as the script writes it. `GenerateLinks.PlainRecord` shows that both forms agree when no field holds a quote.
