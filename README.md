# Tp2_MongoDB, verified model

Tp2_MongoDB is a small benchmark comparing MongoDB with Supabase (PostgreSQL) on the same ISS-position data. It consists of three scripts, and this project models the sequential logic of each one in Dafny.

- **`Test_perf.py`, the benchmark (module `Perf`).**
  - It runs one battery: a simple select, a filtered select and an aggregation, each timed once per backend.
  - Then comes an index-effect test. It drops both benchmark indexes, times `runs` filtered queries per backend, creates the indexes, times them again, and drops the indexes.
  - Finally it prints a summary with a ratio and a winner per test.
  - Each backend's index catalogue is a set of names. A class `Bench` holds both catalogues and the log of every drop, create and query. Its invariant says that the log replays from the initial catalogues to the current ones, and that every query saw the catalogue of its time.
  - Elapsed times come from the environment: `latency(k)` is the time of the k-th query of the battery.
- **`import_donnes_mogo_to_postgres.py`, the export (module `MongoToPostgres`).**
  - `prepare_row` turns a document into a five-column row. It normalises the timestamp (epoch in seconds or milliseconds, integer string, ISO 8601, or none) and defaults missing coordinates to 0.0.
  - `main` sends the rows in batches of `batch_size`, then one final partial batch.
  - The PostgreSQL side is a class `PgConnection` holding the list of INSERT statements sent. The table by id is derived from that list under `ON CONFLICT (id) DO NOTHING`.
- **`fetch_store_query.py`, the poller (module `FetchStore`).**
  - `store` sends a payload with `insert_one` or `insert_many`, based on its shape.
  - The repeat loop of `main` either stores each payload or collects the items in a buffer. The buffer is flushed at `batch_size`, discarded after every flush, and flushed once more at the end.
  - The HTTP responses are an input sequence; `None` stands for a request that raised.
  - The collection calls and the waits are recorded, in order, in a class `Session`.

Shared modules:
- `PyValues` models the Python values the scripts handle and the built-ins they use on them: `isinstance(x, (int, float))` (bools are numbers), `int(s)`, `str(x)` and `dict.get`.
- `Seqs` holds sequence lemmas: cutting into batches and flattening back.
- `Outcomes` holds `Option` and `Result`.

Where a script's documented intent and its code differ, the model follows the code:
- **Winner on a tie.** `display_summary` names Supabase the winner only when it is strictly faster, so a tie goes to MongoDB (Test_perf.py:342).
- **Ratio.** The ratio is 0 whenever the Supabase time is not positive, not only when it is 0.
- **Averaging with no runs.** Zero runs average to 0; nothing raises (Test_perf.py:472-473).
- **Query order.** Inside one index-effect phase the backends alternate: each iteration runs the MongoDB query and then the PostgreSQL query (Test_perf.py:465-470). One backend's runs do not all finish before the other's begin.
- **Cleanup.** No `finally` protects the index cleanup. Only the normal path is modelled.
- **Field name mismatch.** The benchmark filters and indexes `iss_position.lattitude` and the column `lattitude`. The export reads the coordinate from `iss_position.latitude` (import_donnes_mogo_to_postgres.py:68). The constants keep both spellings as written.
- **`batch_insert`'s count.** It counts rows sent, not rows stored: a conflicting id is skipped but still counted (`CountIsRowsSent`).
- **Waits in the poller.** A fetch that fails `continue`s past the wait (fetch_store_query.py:102-106). So the number of waits is `repeat - 1` only when every fetch succeeds. In general it is the number of successful fetches outside the last iteration (`RunSleeps`, `FailedFetchSkipsWait`).
- **Flush size in the poller.** A single list payload can push one flush past `batch_size` (`FlushCanExceedBatchSize`).

## Model

| member | source | states |
|---|---|---|
| Perf.Ratio | Tp2_MongoDB/Test_perf.py:340 | with a positive Supabase time, ratio times Supabase time equals MongoDB time; otherwise the ratio is 0 |
| Perf.Winner | Tp2_MongoDB/Test_perf.py:342 | Supabase wins exactly when strictly faster; MongoDB wins exactly when not slower (ties included) |
| Perf.RatioAgreesWithWinner | Tp2_MongoDB/Test_perf.py:340-357 | with a positive Supabase time: ratio > 1 iff Supabase wins, ratio < 1 iff MongoDB is faster, ratio = 1 iff tie |
| Perf.DisplaySummary | Tp2_MongoDB/Test_perf.py:336-352 | one summary row per result, in input order, keeping name and both times, with that result's ratio and winner |
| Perf.Mean | Tp2_MongoDB/Test_perf.py:472-473 | the mean of no samples is 0; otherwise mean times count equals the sum |
| Perf.MeanWithinBounds | Tp2_MongoDB/Test_perf.py:496-497 | bounds holding for every sample hold for the mean |
| Perf.MeanBetweenMinAndMax | Tp2_MongoDB/Test_perf.py:472-473 | the mean of a non-empty list lies between its minimum and its maximum |
| Perf.MeanOfEqualSamples | Tp2_MongoDB/Test_perf.py:496-497 | n equal samples average to that sample |
| Perf.MongoFilter | Tp2_MongoDB/Test_perf.py:442-446 | field and threshold kept; `$gt` exactly when the threshold is an int, float or bool, equality otherwise |
| Perf.PgFilter | Tp2_MongoDB/Test_perf.py:447 | defines the PostgreSQL `WHERE column > %s` clause: the column, always `>`, and the threshold as given |
| Perf.FiltersAgreeIffNumeric | Tp2_MongoDB/Test_perf.py:442-447 | MongoDB and PostgreSQL use the same comparison exactly when the threshold is numeric |
| Perf.Apply | Tp2_MongoDB/Test_perf.py:404-427 | a drop removes the name from its backend's catalogue, a create adds it, the other catalogue is untouched, and a query changes nothing |
| Perf.DropAndCreateIdempotent | Tp2_MongoDB/Test_perf.py:404-427 | dropping twice leaves what dropping once leaves; so does creating twice |
| Perf.PhaseLogShape | Tp2_MongoDB/Test_perf.py:465-470 | a phase of n iterations has 2n queries, alternating MongoDB then PostgreSQL |
| Perf.PhaseLogReplay | Tp2_MongoDB/Test_perf.py:489-494 | a phase changes no catalogue and each of its queries sees the catalogue it started with |
| Perf.Samples | Tp2_MongoDB/Test_perf.py:465-470 | a phase collects exactly n samples per backend, the i-th being the time of that backend's i-th query |
| Perf.IndexEffectLayout | Tp2_MongoDB/Test_perf.py:453-503 | the normal path is, in order: two drops, the first phase, two creates, the second phase, two drops |
| Perf.IndexEffectPhases | Tp2_MongoDB/Test_perf.py:454-503 | every query of the first phase runs with the benchmark index of its backend absent, every query of the second with it present |
| Perf.DropsRestore | Tp2_MongoDB/Test_perf.py:501-503 | the two drops leave the catalogues without the benchmark indexes |
| Perf.NoIndexRestores | Tp2_MongoDB/Test_perf.py:453-475 | the first half leaves both catalogues without the benchmark indexes, with every query consistent |
| Perf.IndexedRestores | Tp2_MongoDB/Test_perf.py:477-499 | the second half leaves both catalogues with the benchmark indexes, with every query consistent |
| Perf.IndexEffectRestores | Tp2_MongoDB/Test_perf.py:454-503 | after the normal path both catalogues equal their initial contents minus the benchmark index names |
| Perf.IndexEffectResults | Tp2_MongoDB/Test_perf.py:509-526 | defines the two records returned: the "sans index" record with the means of the first phase's samples, then the "avec index" record with the means of the second phase's |
| Perf.Bench.DropMongoIndex | Tp2_MongoDB/Test_perf.py:404-410 | the drop, taken to succeed, leaves the name absent from the MongoDB catalogue whether or not it existed; PostgreSQL untouched |
| Perf.Bench.DropPostgresIndex | Tp2_MongoDB/Test_perf.py:420-427 | `DROP INDEX IF EXISTS`, taken to succeed: the name is absent from the PostgreSQL catalogue afterwards; MongoDB untouched |
| Perf.Bench.CreateMongoIndex | Tp2_MongoDB/Test_perf.py:397-401 | the named index is added to the MongoDB catalogue and its name is returned |
| Perf.Bench.CreatePostgresIndex | Tp2_MongoDB/Test_perf.py:413-417 | `CREATE INDEX IF NOT EXISTS`: the name is in the PostgreSQL catalogue afterwards |
| Perf.Bench.RunQuery | Tp2_MongoDB/Test_perf.py:466-469 | one query changes no catalogue and is logged with the indexes its backend carries at that moment |
| Perf.Bench.MeasurePhase | Tp2_MongoDB/Test_perf.py:465-470 | the loop issues the phase log and collects one backend's samples at every other query number |
| Perf.Bench.MeasureWithoutIndex | Tp2_MongoDB/Test_perf.py:453-475 | drops both indexes, runs the phase, returns the two means; catalogues end without the indexes |
| Perf.Bench.MeasureWithIndex | Tp2_MongoDB/Test_perf.py:477-499 | creates both indexes, runs the phase, returns the MongoDB index name and the two means |
| Perf.Bench.DropBenchIndexes | Tp2_MongoDB/Test_perf.py:501-503 | drops the MongoDB index by the returned name, then the PostgreSQL index |
| Perf.Bench.CompareIndexEffect | Tp2_MongoDB/Test_perf.py:430-526 | the whole normal path: its event log, the final catalogues without the benchmark indexes, and the two result records averaging the right samples |
| Perf.Bench.CompareOnce | Tp2_MongoDB/Test_perf.py:181-213 | one single-shot test: the MongoDB query, then the PostgreSQL query, against unchanged catalogues |
| Perf.Bench.RunSingleShots | Tp2_MongoDB/Test_perf.py:540-549 | simple select, filtered select and aggregation, in that order |
| Perf.Bench.RunBattery | Tp2_MongoDB/Test_perf.py:531-561 | the battery's log, results and summary; at the end only the two benchmark indexes are removed |
| Perf.BatteryShape | Tp2_MongoDB/Test_perf.py:540-556 | five results, the three single-shot tests first in declaration order; the MongoDB time without index and the PostgreSQL time with index are each the mean of three samples; the filtered test uses the filter the index test builds for threshold 0 |
| Perf.BatteryRestores | Tp2_MongoDB/Test_perf.py:551-554 | the whole battery leaves both catalogues as they were minus the benchmark indexes, with every query consistent |
| PyValues.Str | Tp2_MongoDB/import_donnes_mogo_to_postgres.py:44 | `str` of a string, ObjectId or None is its text; `int(str(n)) == n` for an int |
| PyValues.IsNumber | Tp2_MongoDB/import_donnes_mogo_to_postgres.py:49 | defines `isinstance(x, (int, float))`: an int, a float or a bool |
| PyValues.Get | Tp2_MongoDB/import_donnes_mogo_to_postgres.py:43-46 | `doc.get(key)` is the stored value when the key is present and None otherwise |
| PyValues.ParseInt | Tp2_MongoDB/import_donnes_mogo_to_postgres.py:57 | defines `int(s)` on ASCII text: surrounding whitespace stripped, an optional sign, digits with single underscores between them; None where Python raises |
| PyValues.ParseIntOfDecimal | Tp2_MongoDB/import_donnes_mogo_to_postgres.py:57 | the decimal form of every int reads back as that int |
| MongoToPostgres.EpochFromNumber | Tp2_MongoDB/import_donnes_mogo_to_postgres.py:49-54 | above 1e12 the number is milliseconds (seconds times 1000 gives it back), otherwise seconds |
| MongoToPostgres.NormalizeTimestamp | Tp2_MongoDB/import_donnes_mogo_to_postgres.py:46-66 | a number in range becomes its epoch and a number out of range raises `TimestampOutOfRange`; an integer string in range becomes its epoch; any other string becomes `IsoDateTime` exactly when `fromisoformat` accepts it, else None; other types give None |
| MongoToPostgres.ToFloat | Tp2_MongoDB/import_donnes_mogo_to_postgres.py:70 | numbers convert to their value; a string converts to `float(s)` or fails when `float` refuses it; other values fail; every failure names the coordinate |
| MongoToPostgres.PositionField | Tp2_MongoDB/import_donnes_mogo_to_postgres.py:68-69 | a missing position or key gives 0.0; a present non-dict position raises |
| MongoToPostgres.PrepareRow | Tp2_MongoDB/import_donnes_mogo_to_postgres.py:41-70 | id is `str(_id)`, message is `doc.get("message")`, timestamp normalised; no position gives coordinates 0.0 |
| MongoToPostgres.StringEpochAgreesWithNumber | Tp2_MongoDB/import_donnes_mogo_to_postgres.py:55-61 | a timestamp written as an integer string is read like the same integer |
| MongoToPostgres.UnitsAgree | Tp2_MongoDB/import_donnes_mogo_to_postgres.py:50-54 | for instants between 1e9 and 1e12 seconds, the epoch in seconds and in milliseconds read as the same instant |
| MongoToPostgres.UnreadableTimestampIsNone | Tp2_MongoDB/import_donnes_mogo_to_postgres.py:62-66 | a string that is neither integer nor ISO, or a value of another type, gives no timestamp and no error |
| MongoToPostgres.InsertIgnoringConflicts | Tp2_MongoDB/import_donnes_mogo_to_postgres.py:91 | defines `ON CONFLICT (id) DO NOTHING` on the table by id: rows go in in order, and a row whose id is already present, in the table or earlier in the statement, is skipped |
| MongoToPostgres.InsertKeepsAndAdds | Tp2_MongoDB/import_donnes_mogo_to_postgres.py:91 | `ON CONFLICT DO NOTHING`: existing rows are unchanged and the table's ids grow by exactly the ids sent |
| MongoToPostgres.CountIsRowsSent | Tp2_MongoDB/import_donnes_mogo_to_postgres.py:88-95 | two rows with one id store a single row, though `batch_insert` counts 2 |
| MongoToPostgres.PgConnection.BatchInsert | Tp2_MongoDB/import_donnes_mogo_to_postgres.py:88-95 | no rows: nothing sent and 0 returned; otherwise one statement with all rows and `len(rows)` returned |
| MongoToPostgres.Take | Tp2_MongoDB/import_donnes_mogo_to_postgres.py:34-36 | a limit of 0 takes every document, otherwise the first `limit` |
| MongoToPostgres.EffectiveBatchSize | Tp2_MongoDB/import_donnes_mogo_to_postgres.py:179 | a batch size of at least 1 is itself; a smaller one behaves as 1 |
| MongoToPostgres.PrepareAll | Tp2_MongoDB/import_donnes_mogo_to_postgres.py:177-178 | the `prepare_row` calls of the loop: no more rows than documents, and one row per document when none is rejected |
| MongoToPostgres.PrepareAllFirstError | Tp2_MongoDB/import_donnes_mogo_to_postgres.py:177-178 | the rows are those of the documents before the first rejected one, and the error is that document's |
| MongoToPostgres.PrepareAllStops | Tp2_MongoDB/import_donnes_mogo_to_postgres.py:177-178 | documents after a rejected one are never converted |
| MongoToPostgres.FullBatches | Tp2_MongoDB/import_donnes_mogo_to_postgres.py:179-183 | the rows of the full batches are a prefix leaving fewer than `batch_size` rows |
| MongoToPostgres.FullBatchesAreFull | Tp2_MongoDB/import_donnes_mogo_to_postgres.py:179-183 | every batch sent inside the loop holds exactly `batch_size` rows |
| MongoToPostgres.SendFullBatches | Tp2_MongoDB/import_donnes_mogo_to_postgres.py:177-183 | the loop sends the full batches of the prepared rows; the buffer stays below `batch_size`; `total` counts the rows sent |
| MongoToPostgres.AppendRow | Tp2_MongoDB/import_donnes_mogo_to_postgres.py:178-183 | one row appended; a buffer reaching the batch size is sent and emptied |
| MongoToPostgres.FinalFlush | Tp2_MongoDB/import_donnes_mogo_to_postgres.py:185-191 | the rest is sent only when the buffer is non-empty |
| MongoToPostgres.Transfer | Tp2_MongoDB/import_donnes_mogo_to_postgres.py:174-191 | on success all prepared rows are sent cut into batches and the total is the number of documents read; on a rejected document only the full batches before it are sent; the table gains those rows under `ON CONFLICT DO NOTHING` |
| MongoToPostgres.TransferBatches | Tp2_MongoDB/import_donnes_mogo_to_postgres.py:174-191 | the batches flatten back to the rows in order; all but the last are full, the last holds 1 to `batch_size` rows, and there is no batch for no rows |
| Seqs.FlattenChunks | Tp2_MongoDB/import_donnes_mogo_to_postgres.py:177-189 | cutting into batches and concatenating them gives the sequence back |
| FetchStore.StoreCalls | Tp2_MongoDB/fetch_store_query.py:16-24 | no call exactly for an empty list; one `insert_many` for a non-empty list; one `insert_one` for anything else |
| FetchStore.Items | Tp2_MongoDB/fetch_store_query.py:112-115 | defines what a payload adds to the buffer: a list's items (`extend`), or the payload itself (`append`) |
| FetchStore.StoreSendsItems | Tp2_MongoDB/fetch_store_query.py:16-24 | whatever its shape, `store` sends exactly the payload's items and never waits |
| FetchStore.Stored | Tp2_MongoDB/fetch_store_query.py:110-129 | defines the insert part of one iteration: nothing without `--insert`; in batch mode the buffer grows by the payload's items and is flushed and emptied once it reaches a positive `batch_size`; otherwise the calls of `store` |
| FetchStore.Iteration | Tp2_MongoDB/fetch_store_query.py:101-132 | defines one pass of the loop: a failed fetch does nothing and skips the wait; otherwise the stored actions, then a wait unless it is the last iteration or the interval is not positive |
| FetchStore.FinalFlush | Tp2_MongoDB/fetch_store_query.py:134-139 | defines the closing flush: one `insert_many` of the buffer, only in insert and batch mode and when the buffer is not empty |
| FetchStore.Run | Tp2_MongoDB/fetch_store_query.py:99-139 | defines a whole run: the actions of every iteration in order, from an empty buffer, followed by the closing flush |
| FetchStore.BufferBounded | Tp2_MongoDB/fetch_store_query.py:117-123 | the buffer is used only in insert+batch mode, and with a positive batch size it holds fewer than `batch_size` items after every iteration |
| FetchStore.SentAndBuffered | Tp2_MongoDB/fetch_store_query.py:101-129 | in insert mode, the items sent so far followed by the buffer are the items fetched so far; without `--insert` nothing is sent |
| FetchStore.SentIsFetched | Tp2_MongoDB/fetch_store_query.py:101-139 | in insert mode every fetched item is sent exactly once and in fetch order, batched or not; failed fetches contribute nothing |
| FetchStore.LoopCallsAreBatches | Tp2_MongoDB/fetch_store_query.py:110-123 | in batch mode the loop only calls `insert_many` |
| FetchStore.LoopFlushesAreFull | Tp2_MongoDB/fetch_store_query.py:117-123 | with a positive batch size, each flush inside the loop carries at least `batch_size` items |
| FetchStore.LoopMakesNoCall | Tp2_MongoDB/fetch_store_query.py:117 | without a positive batch size, the loop makes no collection call |
| FetchStore.FlushSizes | Tp2_MongoDB/fetch_store_query.py:117-139 | flushes inside the loop have at least `batch_size` items; the final flush, if any, has between 1 and `batch_size - 1` |
| FetchStore.SingleFinalInsert | Tp2_MongoDB/fetch_store_query.py:117-137 | without a positive batch size, batch mode makes one `insert_many` of everything fetched, or none when nothing was fetched |
| FetchStore.SleepsAfter | Tp2_MongoDB/fetch_store_query.py:131-132 | after k iterations the waits are the successful fetches among them, excluding the last iteration's; none with a non-positive interval |
| FetchStore.RunSleeps | Tp2_MongoDB/fetch_store_query.py:101-132 | a run waits once per successful fetch outside the last iteration, and never with a non-positive interval |
| FetchStore.WaitsBetweenIterations | Tp2_MongoDB/fetch_store_query.py:131-132 | when every fetch succeeds and the interval is positive, there are `repeat - 1` waits |
| FetchStore.FailedFetchSkipsWait | Tp2_MongoDB/fetch_store_query.py:102-106 | two iterations whose first fetch fails make no wait |
| FetchStore.FlushCanExceedBatchSize | Tp2_MongoDB/fetch_store_query.py:112-123 | a three-item list with batch size 2 is flushed as a single call of three |
| FetchStore.Store | Tp2_MongoDB/fetch_store_query.py:16-24 | the calls made on the collection are those of `StoreCalls` |
| FetchStore.RunIteration | Tp2_MongoDB/fetch_store_query.py:101-132 | one iteration makes the calls and leaves the buffer of the reference `Iteration` |
| FetchStore.FetchAndStore | Tp2_MongoDB/fetch_store_query.py:99-139 | the whole loop and the final flush make exactly the actions of the reference `Run` |

## Left out

- Wall-clock timing (`time.time()` deltas) is not computed. Query latencies are the input `latency`.
- The databases and the network are not modelled. This covers connections, the `EXPLAIN ANALYZE` and `explain()` reports, the aggregation pipelines' results, the collection and table statistics (`display_stats`), `requests.get`, and the demo queries (`--show`). A query is an event carrying the indexes it ran against; a fetch is an input response.
- `time.sleep` is recorded as an action; no time passes.
- Printing, the pandas table and the `:.2f` formatting are not modelled.
- `datetime.fromtimestamp` and `datetime.fromisoformat` are abstract. The host's accepted epoch range is `Host.timestampInRange`, ISO acceptance is `Builtins.isIsoFormat`, `float()` on a string is `Builtins.floatOfStr`, and the `repr` of floats and containers is `Builtins.reprOf`.
- Floats are reals: no NaN, no infinities and no rounding. A float epoch string such as `"1.5e9"` is left to `int()` failing and then to the ISO reading, as in the source.
- `int()` accepts only ASCII digits and ASCII whitespace here. Python also accepts other Unicode decimal digits and spaces.
- Exception paths of the benchmark are not modelled. A failing query or index creation aborts the battery and leaves the indexes and connections behind, because there is no `finally`. Only the normal path is modelled.
- Perf.Bench.DropMongoIndex, Perf.Bench.DropPostgresIndex: every drop is taken to succeed. Both helpers swallow every exception, so a failure that leaves the index in place (a lost connection, an index still being built) goes unnoticed in the source, and on PostgreSQL it also leaves the transaction aborted so the next query raises. The model does not capture that case, and `IndexEffectPhases`, `IndexEffectRestores` and `BatteryRestores` hold under that assumption.
- In the export, the exception from `prepare_row` is modelled. Database errors from `batch_insert` are not.
- In the poller, a failed insert only prints a message. It is recorded as an attempted call, whatever its outcome.
- The ids that `store` and `insert_many` return are not modelled; they are only printed.
- pymongo adding `_id` to the inserted dictionaries is not modelled.
- The export's limit is a `nat`. A negative `--limit`, which pymongo would treat as a batch limit, is not modelled.
- `execute_values` with `page_size=1000` sends a batch of more than 1000 rows as several INSERT statements. The model sends it as one, which has the same effect on the table.
- The table's `NOT NULL` and `VARCHAR(255)` constraints are not modelled. Neither are `ensure_table`, `--drop-table` and the JSON `--query` argument.
- Argument parsing and environment loading (`connexion.py`, `.env`, `API_URL`) are not modelled, and `test_mongo_conn.py` is not part of this model.
- PrepareRow: its contract states the id, the message, the normalised timestamp, the default coordinates and where a `PositionNotDict` error comes from. The conversion of coordinates that are present is stated by `PositionField` and `ToFloat`, not by `PrepareRow`'s own contract.
- Perf.Bench.MeasurePhase: the samples are the environment's latencies at the query numbers. That they are non-negative is not assumed.
