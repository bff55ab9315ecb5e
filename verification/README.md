# Threat-intelligence ingestion and query model

A Dafny model of a small threat-intelligence pipeline. The fetcher pulls
AlienVault OTX pulses and turns every well-formed indicator into a record
`(indicator, type, timestamp)`. It stores each record in MongoDB through
`update_one(..., {"$setOnInsert": item}, upsert=True)`, so a record whose
natural key is already stored is counted as a duplicate and written nowhere.
The fetch is retried by `backoff.on_exception` on request and database
errors, at most five attempts. The read side (two Flask apps) turns the
`type` and `severity` request arguments into an equality filter, and asks
for the 20 newest matching documents. It renders each document as a row,
with `"N/A"` for missing fields and a parsed or absent timestamp.

Modules:

- `Wrappers` (wrappers.dfy): `Option` and Python truthiness of an optional string.
- `Documents` (documents.dfy): documents as `map<string, string>`, the natural key,
  equality-filter matching, and the uniqueness invariant.
- `Extraction` (extraction.dfy): the nested extraction loop of `fetch_otx_threats`, and
  a flatten-filter-number reference definition that it is proved equal to.
- `Retry` (retry.dfy): the `backoff` decorator's attempt bound and retryable exceptions.
- `Store` (store.dfy): `insert_threats` as a fold of upserts-if-absent, including a run
  that a store error cuts short.
- `Cycle` (cycle.dfy): `fetch_and_insert`, which is a retried fetch followed by the
  insert loop, and the two-pulse scenario.
- `Query` (query.dfy): the filter built by each app, and the UI app's span name.
- `Ordering` (ordering.dfy): the `sort("timestamp", -1)` order and an insertion sort.
- `Views` (views.dfy): `find/sort/limit`, row mapping, the error fallback, and `/health`.

Inputs that the fetcher and the two apps get from I/O are parameters here:

- the decoded OTX payload, one per attempt: `responses: nat -> Attempt<Payload>`;
- `datetime.utcnow().isoformat()`, as a clock `nat -> string` with one reading per
  kept entry;
- `datetime.fromisoformat`, as `string -> Option<D>`;
- the index of the `update_one` call that raises, if any;
- whether the store answers a read: `StoreView`.

Two behaviours of the code run against what one would expect of such a pipeline.
The model follows the code:

- No `severity` is written by the fetcher, although the stored threats are expected
  to carry one that defaults to "unknown". `ToDocument` proves that the stored
  document has exactly the three key fields.
- The fallback timestamp is read from the clock once per kept entry, at fetch time.
  So a pulse without `modified` gets a new timestamp on every cycle. Re-running the
  same payload later inserts that pulse's indicators again, where a re-run of an
  unchanged feed would be expected to insert nothing. `Cycle.ScenarioRerun` proves both cases:
  nothing is inserted with an unchanged clock, and one record is inserted once the
  clock has moved on.

## Model

| member | source | states |
|---|---|---|
| `Documents.ToDocument` | fetcher/fetcher.py:49-53 | a stored record has exactly the fields indicator, type and timestamp, no severity, and carries the record's key |
| `Documents.KeyFilter` | fetcher/fetcher.py:67 | the upsert filter constrains exactly the three key fields |
| `Documents.MatchesKeyFilter` | fetcher/fetcher.py:67 | a document matches the upsert filter exactly when it has all three key fields with the record's values |
| `Documents.PresentIffStored` | fetcher/fetcher.py:66-67 | some document matches a key's filter exactly when that key is among the collection's stored keys |
| `Extraction.ExtractEntries` | fetcher/fetcher.py:45-53 | records from one pulse have non-empty indicator and type, number at most the entries, and the j-th is stamped with the pulse's `modified` or clock reading base+j plus "Z" |
| `Extraction.StampOf` | fetcher/fetcher.py:52 | a record of a pulse with `modified` is stamped with that value; otherwise with the clock reading followed by a single "Z" |
| `Extraction.ExtractPulses` | fetcher/fetcher.py:44-53 | every record of the outer loop has a non-empty indicator and type |
| `Extraction.Extract` | fetcher/fetcher.py:43-53 | a payload without `results` yields no records and raises nothing; every record has non-empty indicator and type |
| `Extraction.KeptAppend` | fetcher/fetcher.py:44-48 | the drop rule applied to two concatenated runs of entries is the concatenation of the two filtered runs |
| `Extraction.Number` | fetcher/fetcher.py:49-53 | numbering kept entries yields exactly one record per entry |
| `Extraction.NumberAppend` | fetcher/fetcher.py:49-53 | numbering two runs equals numbering the first and continuing the count in the second |
| `Extraction.ReferenceAppend` | fetcher/fetcher.py:44-53 | numbering the kept entries of two runs continues the second run's numbers after the first run's kept count |
| `Extraction.EntriesMatchReference` | fetcher/fetcher.py:45-53 | the inner loop emits exactly the accepted entries of the pulse, in order, with their timestamps |
| `Extraction.PulsesMatchReference` | fetcher/fetcher.py:43-53 | the nested loops emit exactly the accepted entries in pulse-then-entry order, and a dropped entry does not stop the rest |
| `Extraction.ExtractMatchesReference` | fetcher/fetcher.py:43-53 | the output length equals the number of entries with truthy indicator and type, and the output is the reference list |
| `Extraction.PulseWithModified` | fetcher/fetcher.py:52 | every record from a pulse that has `modified` carries exactly that value |
| `Extraction.EmptyPulseContributesNothing` | fetcher/fetcher.py:44-45 | a pulse with no `indicators` key or an empty list adds no records and leaves later pulses unaffected |
| `Retry.TryFrom` | fetcher/fetcher.py:34 | from attempt k, the result is the last attempt made, every attempt before it failed retryably, and it stops before five only on a return or a non-retryable error |
| `Retry.OnException` | fetcher/fetcher.py:34 | between one and five attempts; the outcome is the last attempt's; all earlier ones raised a request or database error |
| `Retry.RetryCharacterised` | fetcher/fetcher.py:34 | the result is the first attempt that returns or raises a non-retryable error within five tries, else the fifth failure |
| `Retry.FourFailuresThenSuccess` | fetcher/fetcher.py:34 | four request errors then a success return the success after exactly five attempts |
| `Retry.FiveFailuresGiveUp` | fetcher/fetcher.py:34 | endless retryable failures raise the fifth error after five attempts, no sixth |
| `Retry.OtherExceptionNotRetried` | fetcher/fetcher.py:34 | an exception outside the retry list propagates after one attempt |
| `Store.UpdateOneSetOnInsert` | fetcher/fetcher.py:66-70 | writes exactly when no document matches the filter, and then only appends; a matching document leaves the collection unchanged |
| `Store.Upsert` | fetcher/fetcher.py:66-71 | `upserted_id` is set exactly when the record's key was absent, and then the record's document is appended |
| `Store.InsertThreats` | fetcher/fetcher.py:62-82 | new plus dup equals the batch length, the collection grows by the new count, and the documents stored before are unchanged |
| `Store.StoredKeysAppend` | fetcher/fetcher.py:66-70 | appending a keyed document adds exactly its key to the stored keys |
| `Store.UpsertKeys` | fetcher/fetcher.py:66-70 | one upsert leaves the stored keys as before plus the record's key |
| `Store.UpsertPreservesUnique` | fetcher/fetcher.py:66-70 | one upsert keeps all stored keys distinct |
| `Store.InsertPreservesUnique` | fetcher/fetcher.py:65-79 | if no two stored documents share a key before the call, none do after it |
| `Store.BatchKeysCons` | fetcher/fetcher.py:65 | proof helper for `InsertKeys`: the keys of a batch are the first item's key plus the keys of the rest |
| `Store.InsertKeys` | fetcher/fetcher.py:65-79 | after the call, the stored keys are the old keys plus every key of the batch |
| `Store.InsertStoresEveryKey` | fetcher/fetcher.py:65-79 | after the call every item's key is present in the collection |
| `Store.InsertedCountsNewKeys` | fetcher/fetcher.py:64-82 | the returned count is the number of distinct batch keys not stored before, so an in-batch repeat is never new |
| `Store.NewKeysStep` | fetcher/fetcher.py:71-79 | proof helper for `InsertedCountsNewKeys`: a stored key adds no new key, an unstored key adds exactly one |
| `Store.InsertAllPresent` | fetcher/fetcher.py:71-79 | a batch whose keys are all stored writes nothing and counts every item as a duplicate |
| `Store.InsertIdempotent` | fetcher/fetcher.py:62-82 | calling again with the same items returns 0, counts all as duplicates and changes nothing |
| `Store.InsertSplit` | fetcher/fetcher.py:65-79 | inserting a+b equals inserting a then b, with the counts added |
| `Store.TimestampDiscriminates` | fetcher/fetcher.py:67 | two records differing only in timestamp are both stored |
| `Store.RepeatWithinBatchIsDuplicate` | fetcher/fetcher.py:65-79 | when a key occurs at positions i < j of one batch, the upsert of item j writes nothing, so the batch has at least one duplicate and fewer inserts than items |
| `Store.InsertThreatsFallible` | fetcher/fetcher.py:65-70 | the loop aborts exactly when the failing `update_one` index lies within the batch; either way the documents stored before stay in place, and a completed run counts every item once |
| `Store.AbortLeavesPrefix` | fetcher/fetcher.py:65-70 | an aborted loop leaves exactly what the items before the failing call wrote, taking the raising call to have written nothing (see "Left out") |
| `Store.NoFailureCompletes` | fetcher/fetcher.py:65-79 | with no failing call inside the batch, the loop completes exactly like the uninterrupted one |
| `Store.RerunAfterAbortConverges` | fetcher/fetcher.py:62-82 | re-running the whole batch after a store error reaches the same collection as an uninterrupted run |
| `Store.RerunAfterPrefixConverges` | fetcher/fetcher.py:62-82 | re-running the whole batch after any prefix of it was written, including a failing call that wrote its document before raising, reaches the uninterrupted collection |
| `Cycle.FetchOtxThreats` | fetcher/fetcher.py:34-60 | at most five attempts; a success is the extraction of that attempt's payload; a failure is that attempt's exception; earlier attempts all failed retryably; stopping before the fifth attempt means the last one did not fail retryably |
| `Cycle.FetchAndInsert` | fetcher/main.py:19-23 | the cycle fails at the fetch exactly when the retried fetch raises, and then leaves the collection unchanged; otherwise a finished cycle has the collection and count of `insert_threats` on the fetched records, and a store error leaves what the items before the failing call wrote |
| `Cycle.CyclePreservesUnique` | fetcher/main.py:19-23 | whatever the outcome of a cycle, no two stored documents share a key |
| `Cycle.FinishedCycleStoresFetched` | fetcher/main.py:21-22 | after a finished cycle every fetched record's key is stored, and the count is the number of distinct fetched keys not stored before |
| `Cycle.ScenarioExtraction` | fetcher/fetcher.py:43-53 | in the two-pulse example, pulse A keeps its `modified` and pulse B gets the clock reading plus "Z" |
| `Cycle.TwoDistinctInserted` | fetcher/fetcher.py:62-82 | two records with distinct keys are both inserted into an empty collection |
| `Cycle.OneChangedKeyInserted` | fetcher/fetcher.py:62-82 | re-sending one old key and one new key inserts exactly one document |
| `Cycle.ScenarioRerun` | fetcher/fetcher.py:52 | the two-pulse example inserts 2, then 0 with 2 duplicates under the same clock, and 1 once the clock has moved |
| `Query.CollectTruthy` | app/views.py:19 | the comprehension's keys are exactly the keys paired with a truthy value, and each key maps to the value of its last truthy pair |
| `Query.LastTruthyExtends` | app/views.py:19 | a later pair with another key or a falsy value does not change which pair is the last truthy one for a key |
| `Query.ViewsQuery` | app/views.py:17-19 | the filter has `type` exactly when the argument is truthy, with its value, likewise `severity`, and no other key |
| `Query.UiQuery` | app/ui_app.py:76-83 | the filter has `type` exactly when the argument is truthy, with its value, likewise `severity`, and no other key |
| `Query.QueriesAgree` | app/views.py:19 | the two apps build the same filter from the same arguments |
| `Query.SpanName` | app/ui_app.py:85-91 | the span name is one of the four names; it is the bare `query_threats` exactly when neither argument is truthy, and `query_threats_type_severity` exactly when both are |
| `Query.SpanNameReflectsQuery` | app/ui_app.py:85-91 | the span name is `query_threats`, then `_type` if the filter has type, then `_severity` if it has severity |
| `Query.SpanNameDistinguishesCombinations` | app/ui_app.py:85-91 | two requests get the same span name exactly when they agree on which filters are truthy |
| `Ordering.StrLeTotal` | app/views.py:41 | any two timestamp strings are comparable |
| `Ordering.StrLeTransitive` | app/views.py:41 | the string order is transitive |
| `Ordering.KeyLeTotal` | app/views.py:41 | any two sort keys, including a missing timestamp, are comparable |
| `Ordering.KeyLeTransitive` | app/views.py:41 | the sort-key order is transitive |
| `Ordering.HeadNotBelowRest` | app/views.py:41 | in a descending sequence the head is not below any later document |
| `Ordering.ConsSorted` | app/views.py:41 | a document not below any member of a descending sequence can lead it and keep it descending |
| `Ordering.NotBelowHead` | app/views.py:41 | a document not below the head of a descending sequence is not below any of its members |
| `Ordering.InsertDesc` | app/views.py:41 | inserting into a descending sequence keeps it descending and adds exactly that document |
| `Ordering.SortDesc` | app/views.py:41 | the result is a permutation of the input, descending by timestamp |
| `Views.FilterDocs` | app/views.py:41 | keeps every matching document as often as it is stored and nothing else |
| `Views.SortedPrefixIsTop` | app/views.py:41 | the first n of a descending sequence are no lower than every document left out |
| `Views.SubsetMatches` | app/views.py:41 | anything drawn from the filtered documents matches the query |
| `Views.Find` | app/views.py:41 | at most 20 matching documents, min(20, matches) of them, newest first, and none left out is newer than one returned |
| `Views.ReplaceZ` | app/views.py:47 | the result has no 'Z', is no shorter, and is unchanged when the input has no 'Z' |
| `Views.ReplaceZAppend` | app/views.py:47 | replacing in a concatenation is the concatenation of the two replaced halves |
| `Views.ReplaceZChar` | app/views.py:47 | a single 'Z' becomes "+00:00" and any other single character is kept; with `ReplaceZAppend` this fixes the result for every string |
| `Views.ReplaceZStampedTime` | app/views.py:47 | a fetcher-stamped time, clock reading plus "Z", is read back as the reading plus "+00:00" |
| `Views.RowOf` | app/views.py:44-56 | indicator, type and severity are the document's fields or "N/A"; the timestamp is absent for a missing or empty value, and otherwise is what parsing the value with "Z" replaced gives |
| `Views.FetchRows` | app/views.py:29-64 | at most 20 rows in result order; an unreachable store gives no rows; every row satisfies every equality of the filter |
| `Views.RowsSatisfyQuery` | app/views.py:51-56 | the rows of matching documents carry the filtered type and severity values |
| `Views.ViewsIndex` | app/views.py:17-64 | with a reachable store, the rows render, in order, the min(20, matches) newest documents matching the truthy `type`/`severity` arguments; a truthy argument fixes that field in every row; a store error gives an empty list |
| `Views.UiIndex` | app/ui_app.py:76-132 | the span is named after the truthy arguments; with a reachable store, the rows render, in order, the min(20, matches) newest matching documents; a truthy argument fixes that field in every row; a store error gives an empty list |
| `Views.IndexesAgree` | app/ui_app.py:79-83 | both apps render the same rows for the same request |
| `Views.RowsCoverSmallResults` | app/views.py:41-56 | when at most 20 documents match, every matching document is rendered as a row |
| `Views.SubmultisetSameSize` | app/views.py:41 | proof helper for `RowsCoverSmallResults`: a sub-multiset of equal size is the whole multiset |
| `Views.Health` | app/views.py:68-70 | `/health` always answers `{"status": "ok"}` with status 200 |

## Left out

- HTTP retrieval, `raise_for_status` and JSON decoding: each attempt's result is a parameter.
- JSON values other than strings in pulses and documents: every field is a string or absent.
  An explicit `null` `modified` would make the fetcher store a null timestamp.
  Badly shaped payloads are not values of `Payload`: a body that is not an object,
  `"results": null` or `"indicators": null`, or a pulse or entry that is not an object
  makes the extraction loop at fetcher/fetcher.py:44-46 raise `AttributeError` or
  `TypeError`. Neither is a request or database error, so the decorator re-raises it at
  once and the cycle fails. The model represents such an attempt in `responses` as
  `Raised(OtherException(..))`, which `Retry.OtherExceptionNotRetried` covers.
- The backoff delays (exponential with jitter): time and floating point; only the attempt
  bound and the retryable exceptions are modelled.
- `connect_mongo`, `get_api_keys` and `app/db.py`: environment reads, connections and `exit(1)`.
- The scheduler loop of `fetcher/main.py` (`schedule`, `time.sleep`, `--fetch-now`): one cycle
  is modelled as `FetchAndInsert`. Its failed outcomes are values here, but the loop at
  fetcher/main.py:38-42 catches nothing, and the `schedule` library does not catch job
  exceptions. So the fifth fetch failure, a non-retryable exception, or a `PyMongoError`
  from `insert_threats` ends the `while True` loop, and the fetcher process exits after
  its first failed cycle. A long-running scheduler would be expected to keep going.
  `FetchFailed` and `InsertFailed` describe what that cycle left in the store, not a
  loop that carries on.
- Tracing spans, span attributes, counters, CPU and memory metrics, and log lines: telemetry
  with no effect on the data. Only the UI app's span name is modelled.
- `render_template` and Flask routing: rows are the result.
- `datetime.fromisoformat`: an opaque parameter returning `None` where it raises.
- The `_id` field that MongoDB adds to inserted documents.
- Concurrent writers: the collection is changed by one sequential loop, as in the source.
- Ties in the timestamp sort: MongoDB leaves their order open; the model fixes one by its
  insertion sort, and `Find`'s contract does not depend on which.
- String comparison: timestamps are compared by character code, which matches MongoDB's
  binary comparison for characters outside the surrogate range.
- VirusTotal enrichment and severity assignment: the source has none.
- Store.InsertThreatsFallible: the `update_one` call that raises is taken to have written nothing,
  and `AbortLeavesPrefix` and `FetchAndInsert`'s `InsertFailed` clause rest on that. A
  `PyMongoError` can also arrive after the server applied the upsert (a write-concern error,
  or a lost reply), leaving `items[..n + 1]` written instead of `items[..n]`.
  `RerunAfterPrefixConverges` shows a re-run converges in either case, and uniqueness holds
  for any written prefix by `InsertPreservesUnique`.
