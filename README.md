# Cortex batch processor — verified model

This project models the batch loop of the Cortex Analyst UI backend: `CortexProcessor.process_csv`
and its helper `row_to_dict`, with the `ProcessingStatus` record they update. For each question row
the loop:

- skips rows without a question;
- pauses 30 s when three or more analyst errors are pending;
- calls the analyst up to `max_retries` times, waiting 5 s, 10 s, 20 s, … before the retries;
- stops at once on error code `392708`;
- reads the reply with "last text wins" / "last sql wins";
- runs the generated statement, keeping at most 100 rows. A backend failure becomes an error text
  and does not fail the item;
- records the item, bumps the counters, fires the status callback and waits before the next row.

Modules:

- `Wrappers` (wrappers.dfy): `Option` and `Result`.
- `ResponseContract` (response.dfy): the reply shape, `Parse`, and the content loop `ScanContent`.
  `ScanContent` is proved against a backward "last item of this type" definition.
- `QueryExecutor` (query.dfy): the 100-row cap, row conversion and backend-failure handling.
- `Status` (status.dfy): `ProcessingStatus` as a class whose methods update its fields. Its `Copy()`
  is the value the callback sees.
- `Processor` (processor.dfy): the specification functions and the imperative methods.
  - `AttemptOnce` is one pass of the retry loop. `RetryFrom` is the retry loop.
  - `ItemStep` (built from `Throttle` and `Conclude`) is one row. `BatchFrom` is the row loop.
    `Run` is the whole call.
  - `TryOnce`, `RetryQuestion`, `ProcessRow` and `CortexProcessor.ProcessCsv` are the loop bodies and
    loops as methods over the mutable status. Each is proved equal to its function.
- `Properties` (properties.dfy): lemmas about those functions.

The analyst and the backend are scripts. The n-th analyst call of a batch returns `analyst(n)`, and
the n-th statement execution returns `backend(n)`. Every `time.sleep`, analyst call, statement
execution and callback is appended to an event log (`Event`). That log is ghost in the methods.
Waits, call counts and callbacks are stated over it.

Behaviours of the code a reader might not expect, which the model follows:

- The consecutive-error counter counts failed attempts, not failed items
  (cortex_processor.py:192, 253). One item that exhausts three attempts triggers the pause.
- `process_csv` never sets the job state to "completed". It stays "processing" and only
  `completed_at` is set. The caller sets "completed" (routers/jobs.py:60).
- Rows without a question do not advance `processed`, but they still count in `total`.
- The inter-item delay is decided by the row index against the number of rows, so rows skipped at
  the end of the input do not suppress the delay after the last real item.
- A reply that is not the 392708 code but whose `message` is not a mapping makes `.get` raise. This
  counts as a transient failure and is retried.
- With `max_retries == 0` every item fails and its error is `None`.

## Model

| member | source | states |
|---|---|---|
| `ResponseContract.Parse` | cortex_processor.py:187-203 | Code 392708 and only it gives the semantic error, with text "Error 392708: " plus the message ("Unknown" when absent). A non-mapping message is a failed attempt. A missing message or content list gives empty interpretation and statement. |
| `ResponseContract.ScanContent` | cortex_processor.py:196-203 | The in-order overwrite loop yields exactly the text of the last "text" item and the statement of the last "sql" item. |
| `ResponseContract.LastTextIsLast` | cortex_processor.py:199-201 | The interpretation is the text of the "text" item after which no other "text" item follows. |
| `ResponseContract.LastStatementIsLast` | cortex_processor.py:202-203 | The statement is that of the "sql" item after which no other "sql" item follows. |
| `ResponseContract.AbsentKindGivesEmpty` | cortex_processor.py:196-197 | With no item of a kind, the corresponding result keeps its initial empty string. |
| `ResponseContract.OtherKindsIgnored` | cortex_processor.py:199-203 | Inserting an item of any other type anywhere changes neither interpretation nor statement. |
| `QueryExecutor.CapRows` | cortex_processor.py:214-215 | The kept rows are the first min(n, 100) rows, in order. |
| `QueryExecutor.ConvertRowsAt` | cortex_processor.py:101-112 | Conversion keeps the number and order of rows. Entry k is row k's own mapping, or `{"error": "Could not convert row: …"}` when converting that row raises. |
| `QueryExecutor.ExecuteRows` | cortex_processor.py:209-227 | A backend failure gives "SQL error: " plus the error. Otherwise there is one converted entry per kept row (the first 100 at most), in order. The duration is the backend's. |
| `Status.ProcessingStatus.constructor` | cortex_processor.py:20-32 | The given job id, state, total and start time; all counters zero; nothing else set. |
| `Status.ProcessingStatus.CountSuccess` | cortex_processor.py:247 | `successful` goes up by one and no other field changes. |
| `Status.ProcessingStatus.CountFailure` | cortex_processor.py:258 | `failed` goes up by one and no other field changes. |
| `Status.ProcessingStatus.CountError392708` | cortex_processor.py:191 | `error_392708` goes up by one and no other field changes. |
| `Status.ProcessingStatus.CountProcessed` | cortex_processor.py:277 | `processed` goes up by one and no other field changes. |
| `Status.ProcessingStatus.Complete` | cortex_processor.py:287 | Only `completed_at` is set. |
| `Processor.CortexProcessor.constructor` | cortex_processor.py:61-67 | No session yet; `max_retries` 3 and a delay of 5 s. |
| `Processor.TryOnce` | cortex_processor.py:173-253 | One pass of the retry loop over the mutable status, proved to give exactly the state, verdict and last error that `AttemptOnce` specifies. It covers the backoff wait, the call, the 392708 check, the content scan, the statement run and the success record. |
| `Processor.RetryQuestion` | cortex_processor.py:167-253 | The retry loop over the mutable status ends in exactly the state, success flag and last error that `RetryFrom` specifies. |
| `Processor.ProcessRow` | cortex_processor.py:151-284 | One row (skip, throttle, retry loop, failure record, processed, callback, delay) ends in exactly the state `ItemStep` specifies. |
| `Processor.CortexProcessor.ProcessCsv` | cortex_processor.py:114-299 | Without a session it fails with the "Not connected" message and does nothing else. Otherwise its results, final status and event log are those of `Run`. |
| `Properties.AttemptFacts` | cortex_processor.py:178-253 | One attempt makes exactly one analyst call and is judged by that call alone. It moves `successful` only on success and `error_392708` only on a 392708 reply. It resets the consecutive counter on success and raises it by one otherwise. It appends one success record, or none. |
| `Properties.RetryCalls` | cortex_processor.py:171-193 | The retry loop makes at most `max_retries` calls and stops at the first outcome that is not transient. Every earlier call was transient. The verdict and last error come from the last call. Running out of retries means all `max_retries` calls were made. |
| `Properties.RetryCounters` | cortex_processor.py:171-253 | Over the retry loop, `successful` rises only on success and `error_392708` only on a 392708 reply, and nothing else in the status moves. The consecutive counter ends at 0 on success and otherwise rises by the number of calls made. |
| `Properties.RetryResults` | cortex_processor.py:229-248 | The retry loop appends one success record, for this question, exactly when it succeeds, and otherwise none. The statement count rises only when that record's statement is non-empty. |
| `Properties.RetryLog` | cortex_processor.py:171-212 | The retry loop's log is exactly the backoff schedule of the calls made, then at most one statement execution. |
| `Properties.ScheduleEvents` | cortex_processor.py:172-183 | The backoff schedule holds only waits and calls of this question. |
| `Properties.ScheduleSleeps` | cortex_processor.py:173-176 | From attempt lo to attempt hi the waits are 5·2^(k-1) s each, summing to 5·(2^(hi-1) − 2^(lo-1)) s. |
| `Properties.TotalBackoff` | cortex_processor.py:172-176 | n ≥ 1 attempts wait 5·(2^(n-1) − 1) s in backoff in all; there is no wait before attempt 0. |
| `Properties.SkippedRow` | cortex_processor.py:153-157 | A row without a question adds no result, no counter change, no callback and no wait. |
| `Properties.ConcludeFacts` | cortex_processor.py:255-284 | After the retry loop, `failed` moves only when the loop did not succeed, together with the failure record. Then `processed` moves, the callback gets the updated status, and the delay follows unless this is the last row. |
| `Properties.ItemRecords` | cortex_processor.py:229-277 | A non-empty row appends exactly one result, for this row's id and question. It raises `processed` and exactly one of `successful` / `failed`, and raises `error_392708` only on a failure. |
| `Properties.ThrottleQuiet` | cortex_processor.py:161-165 | The throttle check fires no callback. |
| `Properties.RetryQuiet` | cortex_processor.py:171-253 | The retry loop fires no callback. |
| `Properties.OneCallback` | cortex_processor.py:279-284 | The callback, when present, is the only callback among the events that close a row. |
| `Properties.ConcludeEvents` | cortex_processor.py:276-284 | After the retry loop, exactly one callback fires (when a callback is given), with the row's final counters. |
| `Properties.ItemEvents` | cortex_processor.py:159-284 | Exactly one callback per non-empty row, carrying the row's final status. |
| `Properties.ItemStepPreserves` | cortex_processor.py:151-284 | One row preserves the batch invariant: counters balanced, one result per processed row in input order, `successful` = number of success records, every callback balanced, one callback per processed row. |
| `Properties.BatchInvariant` | cortex_processor.py:151-284 | The whole row loop preserves that invariant. |
| `Properties.RunBookkeeping` | cortex_processor.py:139-299 | At return, processed = successful + failed. processed = number of results ≤ total = number of rows. error_392708 ≤ failed. successful = number of success records. Results follow the non-empty rows in input order, with the "given id, else position" id. Every callback saw balanced counters. With a callback there are processed + 1 callbacks, otherwise none. The state stays "processing", with start and completion times set. |
| `Properties.ItemTraceStart` | cortex_processor.py:161-183 | Three or more pending errors give exactly one 30 s wait before the item's first call. With fewer, the first call comes first. |
| `Properties.ItemConsecutive` | cortex_processor.py:162-253 | After an item the counter is 0 on success. Otherwise it is the pending count (0 after a pause) plus one per call made. |
| `Properties.ExhaustedItemThrottlesNext` | cortex_processor.py:162-253 | An item whose three (or more) allowed attempts all fail transiently is counted failed and triggers the 30 s pause before the next item. |
| `Properties.SemanticErrorStopsItem` | cortex_processor.py:188-193 | A 392708 reply to the first call ends the item after that one call. `error_392708`, `failed` and the counter rise by one, and the failure record carries "Error 392708: …". |
| `Properties.ItemOutcome` | cortex_processor.py:255-274 | A failed item's record has empty texts and results and zero durations. Its error is the last call's error verbatim, or `None` when no call was allowed. A failure before the retries ran out was a 392708 reply. |
| `Properties.AnsweredItem` | cortex_processor.py:205-247 | A usable reply to the item's first call makes the item a success after exactly that one call. The statement runs once and only when non-empty, with its results and duration in the record. A backend failure only turns the results into "SQL error: …". The counter resets. |
| `Properties.AnsweredAttempt` | cortex_processor.py:195-248 | On any attempt, a usable reply makes the attempt a success and appends exactly its success record (`AnsweredRecord`): the parsed interpretation and statement, the next backend call's results when the statement is non-empty, the raw reply and both durations. |
| `Properties.RetryAnswer` | cortex_processor.py:171-248 | When the retry loop succeeds, on whichever attempt, its last call's reply was usable and the loop's one new record is that reply's success record. |
| `Properties.SuccessfulItem` | cortex_processor.py:171-248 | An item that succeeds, on its first call or on a retry, records the reply of its last call. It holds that reply's interpretation and statement, and the statement's results, which are "SQL error: …" when the backend fails. The statement count rises only for a non-empty statement. |

## Left out

- Opening, testing and closing the backend session (cortex_processor.py:89-99, 301-305): a foreign
  network client. The field `connected` stands for "a session is set".
- The body of `call_cortex_analyst` (cortex_processor.py:69-87) always raises. It is replaced by the
  analyst script. The script is indexed by call number, not by question text.
- Reading the CSV with pandas, and `json.dumps` of payloads. Rows arrive already read: a missing or
  falsy cell is `None` / `""`, so pandas' NaN cells, which are truthy, are not modelled. Serialised
  payloads are kept as values (`QueryResults`, `FullResponse`).
- Wall-clock values: `started_at` and `completed_at` are clock readings passed in. The API and SQL
  durations come with the script outcomes. `api_start`, `api_end` and `total_duration_ms` are not
  modelled, and sleeps are entries of the event log, not elapsed time.
- `row_to_dict`'s three ways of reading a row (`asDict`, `as_dict`, `__fields__`) are collapsed into
  "convertible with this mapping" or "raises with this reason".
- Reply shapes beyond those above are not modelled: a content entry that is not a mapping, or a
  content value that is not a list.
- A status callback that raises, and logging.
- Aliasing of the status object: the source hands the live `ProcessingStatus` to the callback, and
  the caller keeps it (routers/jobs.py:30). An observer therefore also sees later changes, including
  the moment between `successful += 1` and `processed += 1` where the counters do not balance. The
  model logs a copy of the status at each callback, so "every callback saw balanced counters" holds
  at the moment of each call only.
- A reply that is not a mapping at all (its `.get` raises, so the attempt is a transient failure),
  and a "text" or "statement" key present with a null value (the source then keeps `None`, not
  `""`). A content item's `text` / `statement` can only be present or absent here.
- Success records carry `error = None`; the source leaves the key out of the record.
- The HTTP routers, job registry, settings and pydantic schemas (routers/jobs.py, routers/config.py,
  main.py, config.py, models.py). The settings `max_retries` and `delay_between_requests` are never
  passed to the processor, whose constructor fixes them at 3 and 5.
