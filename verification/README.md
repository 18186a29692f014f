# Job-status state machine of the dify batch processor

The dify batch processor fans spreadsheet rows out to a workflow engine (Dify).
Four HTTP-triggered loops share one key-value store of job records, keyed by a
deterministic unique id:

- the **loader** structures each sheet row, filters it, derives one id per content
  category ("본문분석" passage analysis, "워크북" workbook), and admits the job as
  `PENDING` only when the id is new or `FAILED`;
- the **dispatcher** counts the `PROCESSING` jobs, computes the spare slots under
  `MAX_CONCURRENT_WORKFLOWS`, and moves at most that many `PENDING` jobs to `QUEUED`
  (or to `FAILED` when the task cannot be created);
- the **worker** validates a delivered task, overwrites the record with
  `PROCESSING`, runs the workflow in blocking mode, and overwrites it again with
  `SUCCESS` or `FAILED`;
- the **poller** settles `PROCESSING` jobs from a timeout-and-fallback-object check
  or from the engine's run status.

The model is a set of pure Dafny functions from a store (`map<string, Record>`) to
a store and an HTTP reply. External services are function-typed parameters:

- the task queue (`enqueue`);
- a failing loader admission transaction (`txFails`);
- the engine (`engine`, `runStatus`);
- the bucket's existence check (`objectExists`);
- a failing store write (`writeFails`);
- the secret (`keys`).

The poll cycle takes a `Matcher`. `AsWritten` is the fallback match as the code has it, and `PollerMain` runs it. `Corrected` is the repaired match described under Findings.

The clock is an integer `now` in microseconds. The store's query order is a
parameter `order`. Lemmas that need "every id exactly once" assume
`Enumerates(order, store)`.

Modules, in dependency order:

| file | module | contents |
|---|---|---|
| basics.dfy | Basics | `Option`, Python truthiness, f-string rendering of `None`, `Reply` |
| text.dfy | Text | `str.split`, `"_".join`, `str.strip`, decimal rendering |
| shared.dfy | Shared | `Status`, `Record`, `Store`, `update_datastore`, the status query, API keys |
| rows.dfy | Rows | row structuring and `find_data_by_name` |
| loader.dfy | Loader | streaming and filtering, ids, inputs, admission, task names, the loader run |
| dispatcher.dfy | Dispatcher | the dispatch cycle under the cap |
| worker.dfy | Worker | `save_to_datastore`, the task payload, the outcome mapping, `main` |
| poller.dfy | Poller | timeout, fallback object path, run-status mapping, the poll cycle |
| pipeline.dfy | Pipeline | what a record written by one loop means to the others |

## Model

| member | source | states |
|---|---|---|
| Shared.Touched | dify-batch-processor/shared/utils.py:42-58 | The record written has the new status and timestamp. A given result or message replaces the old one, and an absent one keeps the prior value. Payload, workflow id and run id survive from the prior record. The index-exclusion set is exactly the present subset of {result, message}. |
| Shared.UpdateDatastore | dify-batch-processor/shared/utils.py:32-63 | An upsert: the id is created if absent, no other record changes, and the merge rules above hold. A failing write is swallowed and leaves the store unchanged. |
| Shared.UpdateIdempotent | dify-batch-processor/shared/utils.py:42-60 | Applying the same update twice gives the store that applying it once gives. |
| Shared.Query | dify-batch-processor/shared/utils.py:65-68 | The equality query returns exactly the listed ids whose record has the status, each with that status, and no more ids than listed. |
| Shared.QueryNoDuplicates | dify-batch-processor/shared/utils.py:65-68 | Over a duplicate-free enumeration the query returns no id twice. |
| Shared.Take | dify-batch-processor/dispatcher/main.py:39-41 | The query `limit` keeps a prefix whose length is the limit clamped to the result size, and 0 for a non-positive limit. |
| Shared.KeyFor | dify-batch-processor/worker/main.py:117 | `keys.get(workflow_id)` gives a key exactly when the workflow id is present and listed, and then the listed key. |
| Shared.InitializeApiKeys | dify-batch-processor/shared/utils.py:11-28 | None when the project id or the secret id is unset or empty. Otherwise exactly the fetched secret, which is None on a fetch or parse error. |
| Text.Strip | dify-batch-processor/loader/main.py:212 | The stripped category is the part of the name between its leading and trailing whitespace runs, and starts and ends with a non-space. |
| Text.JoinSplit | dify-batch-processor/loader/main.py:273 | Joining the `_`-pieces of a string with `_` gives the string back. |
| Text.SplitJoin | dify-batch-processor/loader/main.py:273 | Splitting on `_` a join of `_`-free pieces gives the pieces back. |
| Rows.FindDataByNameFirst | dify-batch-processor/loader/main.py:120-125 | `find_data_by_name` gives None exactly when no map holds the name. Otherwise it gives the value from the first map that holds it. |
| Rows.StructureRow | dify-batch-processor/loader/main.py:94-102 | The padding-and-walk loop builds exactly the structured row of the header: one entry per named header column, in header order. |
| Rows.StructuredShape | dify-batch-processor/loader/main.py:96-102 | The structured row has one entry per non-empty header name. Each entry maps one header name to its cell, padded with "" past the row's end, so cells beyond the header are dropped. |
| Rows.LookupStructured | dify-batch-processor/loader/main.py:96-125 | Looking a name up in a structured row gives None exactly when no header column has the name. Otherwise it gives the padded cell under the first column that has it. |
| Loader.ChunkRows | dify-batch-processor/loader/main.py:94-109 | A chunk yields at most its own rows, numbered within the chunk's row range. |
| Loader.ChunkRowsPass | dify-batch-processor/loader/main.py:104-107 | Every yielded row passes the filter: its filter-column value equals the filter value when both filter settings are non-empty. |
| Loader.ChunkRowsComplete | dify-batch-processor/loader/main.py:94-109 | Every chunk row that passes the filter is yielded, numbered `current_row_index + i`. |
| Loader.ChunkRowsCells | dify-batch-processor/loader/main.py:94-109 | A yielded row carries the cells of the chunk row its number names. |
| Loader.ChunkRowsOrdered | dify-batch-processor/loader/main.py:94-109 | Rows are yielded in strictly increasing row order. |
| Loader.StreamFrom | dify-batch-processor/loader/main.py:85-114 | The chunk loop yields only filtered rows, numbered from the chunk it reached on. |
| Loader.StreamRows | dify-batch-processor/loader/main.py:79-114 | An empty header yields nothing. Every yielded row lies below the header row and passes the filter. |
| Loader.ShortFirstChunk | dify-batch-processor/loader/main.py:85-112 | A short first chunk ends the stream: the rows are that chunk's kept rows, numbered from the row after the header. |
| Loader.UniqueIdDecodes | dify-batch-processor/loader/main.py:154-163 | When no part holds `_`, splitting the id on `_` recovers [workflow, passageGroupId] for an analysis and [workflow, passageGroupId, passageId] for a workbook. |
| Loader.UniqueIdInjective | dify-batch-processor/loader/main.py:154-163 | Two rows of one category get the same id only when their id components agree. |
| Loader.ToDifyInputs | dify-batch-processor/loader/main.py:133-151 | The inputs carry exactly the category's keys. Every key but isNew holds the row's value under that name. The workbook's isNew is the string "true" or "false". |
| Loader.InputsFromSheet | dify-batch-processor/loader/main.py:133-151 | Read from a sheet row, every input but isNew is the cell under the first header column of that name. It is None exactly when no column has the name. |
| Loader.Admit | dify-batch-processor/loader/main.py:215-234 | A job is admitted exactly when its id is absent or FAILED. Admission writes PENDING with a fresh timestamp and keeps the record's other fields. A PENDING, QUEUED, PROCESSING or SUCCESS record is left untouched, and so is every other id. |
| Loader.IsNewNeverSet | dify-batch-processor/loader/main.py:223-238 | Whenever a task is created, the workbook's isNew flag is false. |
| Loader.TaskNameRoundTrip | dify-batch-processor/loader/main.py:243-273 | From the task name "{unique_id}_{seconds}", joining all but the last `_`-piece gives the unique id back. The parsed workflow id is the id's first `_`-piece. The last piece is the decimal rendering of the whole seconds of `now`, and reads back as that number. |
| Loader.TaskNameWorkflow | dify-batch-processor/loader/main.py:272-273 | For an id "{workflow}_{rest}" whose workflow id has no `_`, the parsed workflow id is that workflow id. |
| Loader.LoaderAdmitsOnlyNewOrFailed | dify-batch-processor/loader/main.py:202-245 | A loader run leaves every non-FAILED record untouched. Every record it changes or creates was absent or FAILED and is now PENDING. It creates at most one task per unique id, and each task names such a job. |
| Loader.LoaderProcessesEveryCategory | dify-batch-processor/loader/main.py:202-252 | A run that does not answer 500 processes every category of every streamed row. Each such id ends in the store, and one that was absent or FAILED is PENDING with a task naming it. The reply is "Created N tasks." with N the number of tasks, or "No data found in Google Sheets." when no row was streamed. |
| Loader.LoadRowsCovers | dify-batch-processor/loader/main.py:202-245 | Rows that do not crash the run leave every id their categories name in the store, admitted when the run found it absent or FAILED. |
| Loader.TransactionFailure | dify-batch-processor/loader/main.py:216-256 | A failing admission transaction commits nothing for its category and ends the run. The store and the tasks keep what earlier categories wrote. |
| Loader.CrashedRunStops | dify-batch-processor/loader/main.py:202-256 | After a crash, no later row or category writes or creates anything, so the run answers 500 with the earlier writes and tasks kept. |
| Dispatcher.DispatchMessage | dify-batch-processor/dispatcher/main.py:55-59 | The task body carries the job's id and workflow id, and its payload (an empty object when it has none). |
| Dispatcher.DispatchOne | dify-batch-processor/dispatcher/main.py:53-80 | A selected job becomes QUEUED when its task is created. Otherwise it becomes FAILED with "Dispatcher failed: " and the error. It is unchanged when the write fails, and no other job changes. |
| Dispatcher.DispatchJobs | dify-batch-processor/dispatcher/main.py:52-80 | The per-job loop changes no job outside the selection and removes no job. |
| Dispatcher.DispatchJobsEach | dify-batch-processor/dispatcher/main.py:52-80 | Per-job isolation: each selected job ends as its own step leaves it from its starting record, whatever happened to the others. |
| Dispatcher.DispatchCycle | dify-batch-processor/dispatcher/main.py:24-86 | The number of slots is the cap minus the PROCESSING count. No slots gives "No available slots." with no change. Otherwise the selection is the first min(slots, pending) PENDING ids in query order. An empty selection gives "No pending jobs." and the reply otherwise counts every selected job. Unselected jobs are unchanged, and a failing query gives 500. |
| Dispatcher.DispatchEffect | dify-batch-processor/dispatcher/main.py:52-80 | Over an enumeration of the store, each selected job ends QUEUED on success, or FAILED with its "Dispatcher failed:" message. It keeps its record when the write fails. |
| Dispatcher.DispatchKeepsProcessingCount | dify-batch-processor/dispatcher/main.py:26-31 | A cycle never moves a job into or out of PROCESSING, so the count it caps against is the same afterwards. |
| Dispatcher.NewlyQueuedWithinCap | dify-batch-processor/dispatcher/main.py:31-41 | Every job that became QUEUED in the cycle was selected. The selected jobs plus the PROCESSING jobs number at most the cap, or the PROCESSING count when that already exceeds it. |
| Dispatcher.QueuedNotCounted | dify-batch-processor/dispatcher/main.py:26-27 | QUEUED jobs do not count against the cap. With nothing PROCESSING, all PENDING jobs join the QUEUED ones, so the QUEUED count can exceed the cap. |
| Dispatcher.ScenarioThreePending | dify-batch-processor/dispatcher/main.py:39-75 | With cap 2, nothing running and three PENDING jobs, the first two in query order become QUEUED and the third stays PENDING. |
| Worker.SaveToDatastore | dify-batch-processor/worker/main.py:42-57 | The overwrite stores a fresh record: the status, a naive timestamp, and the given result and message. No payload, workflow id or run id survives, and no other job changes. |
| Worker.SaveForgetsPrior | dify-batch-processor/worker/main.py:42-57 | The saved record does not depend on the prior one, unlike the merge of `update_datastore`, which keeps payload and workflow id. |
| Worker.FromDict | dify-batch-processor/worker/main.py:66-73 | The payload keeps the id and workflow id and defaults a missing data object to an empty one. |
| Worker.ToDifyPayload | dify-batch-processor/worker/main.py:75-82 | The engine body has inputs equal to the data, mode "blocking" and user "user-{unique_id}". |
| Worker.UserNameDecodes | dify-batch-processor/worker/main.py:81 | The engine's user name, minus its "user-" prefix, is the job's unique id. |
| Worker.BuildRequest | dify-batch-processor/worker/main.py:113-120 | The call is authorised with "Bearer " and the key listed for the task's workflow id, rendered "None" when no key is listed. |
| Worker.Settle | dify-batch-processor/worker/main.py:124-156 | Every outcome after PROCESSING is SUCCESS or FAILED. The reply is 200 exactly for SUCCESS and 500 for every failure. A failure stores no result. |
| Worker.SettleMapping | dify-batch-processor/worker/main.py:124-144 | SUCCESS exactly when the engine answers without 403 or an error code, with a decoded `data` whose status is not `failed`; the rendered reply is then stored. A 403 gives FAILED with the fixed forbidden text. A transport error stores its text. A `failed` run stores its error, or "Unknown error" when the key is missing. |
| Worker.Handle | dify-batch-processor/worker/main.py:86-156 | An unconfigured key table gives 500 before the method check, and a non-POST request gives 405. Nothing is written unless the body is valid. A valid body writes PROCESSING before the engine call and then exactly one final status for that id, and 200 exactly when that status is SUCCESS. |
| Worker.HandleRejects | dify-batch-processor/worker/main.py:99-107 | A missing unique id or empty data gives 400, and a body that is not a JSON object gives 500, both with no write. |
| Worker.HandleStores | dify-batch-processor/worker/main.py:110-144 | The stored record is exactly the settled status, result and message, with nothing of the earlier record. |
| Worker.RedeliveryIdempotent | dify-batch-processor/worker/main.py:86-156 | A redelivered task with the same engine answer leaves the store and the reply as one delivery does. |
| Poller.NaiveIsUtc | dify-batch-processor/poller/main.py:59-62 | A naive timestamp is read as the same instant as the UTC one. An aware one is moved back by its offset. |
| Poller.TimeoutStrict | dify-batch-processor/poller/main.py:64-67 | The timeout test is strict: exactly the timeout has not timed out, and one microsecond more has. |
| Poller.FallbackPathAsWritten | dify-batch-processor/poller/main.py:70-74 | As written, a fallback name exists exactly for the passage-analysis workflow id, and it is "passage_analysis/{pg}/result.json". |
| Poller.FallbackPath | dify-batch-processor/poller/main.py:70-78 | The corrected matcher. The analysis id gives "passage_analysis/{pg}/result.json" and the configured workbook id gives "passage-workbook/{pg}/{pid}/result.json". Any other id keeps the name bound for an earlier job in the cycle. The code as written never gets that far, because line 74 raises first. |
| Poller.ObjectName | dify-batch-processor/poller/main.py:70-78 | Under either matcher, the analysis id gives the analysis path. As written, every other id gives no name, which ends the cycle. Corrected, it is the corrected matcher's name. |
| Poller.WorkbookFallbackAsWritten | dify-batch-processor/poller/main.py:74-77 | For a distinct workbook id, the code as written has no fallback name, where the workbook path was meant. |
| Poller.WorkbookFallbackExample | dify-batch-processor/poller/main.py:70-77 | With analysis id "wf-a" and workbook id "wf-b", a wf-b job for group 7, passage 3 ends the cycle as written, where "passage-workbook/7/3/result.json" was meant. |
| Poller.RunDecision | dify-batch-processor/poller/main.py:88-114 | A decision resolves only to SUCCESS or FAILED. A missing or empty key gives FAILED with "Polling failed: No API key found for workflow_id: {id}". |
| Poller.RunStatusMapping | dify-batch-processor/poller/main.py:99-114 | SUCCESS with the rendered run exactly for `succeeded` or `partial-succeeded`. `failed` gives FAILED with the run's error (default "Dify workflow failed."). Every other status leaves the job, and a raised error gives "Polling failed: ...". |
| Poller.PollJob | dify-batch-processor/poller/main.py:51-114 | One job only ever moves to SUCCESS or FAILED, and no other job changes. The scan ends early, without a write, exactly when the job has timed out and the matcher gives no object name. As written, that is every timed-out job not of the analysis workflow. |
| Poller.TimedOutJob | dify-batch-processor/poller/main.py:67-82 | A timed-out job with a fallback object name is settled from the bucket alone, whatever the engine says. As written, only a job of the analysis workflow has one. It becomes SUCCESS with "Found s3://{bucket}/{path}" exactly when the object exists, and FAILED with the timeout message otherwise. |
| Poller.SkippedJob | dify-batch-processor/poller/main.py:84-86 | A job that has not timed out and lacks a run id or workflow id is left unchanged. |
| Poller.PollJobs | dify-batch-processor/poller/main.py:51-114 | The scan changes only scanned jobs, and only to SUCCESS or FAILED. It removes none. |
| Poller.PollJobLocal | dify-batch-processor/poller/main.py:67-114 | As written, a job's outcome reads only its own record, not what earlier jobs in the scan did. |
| Poller.PollJobsEach | dify-batch-processor/poller/main.py:51-114 | As written, with no id listed twice and every timed-out job of the analysis workflow, the scan goes on to the end. Each job ends as `PollJob` leaves it from the step the scan began with. |
| Poller.AbortNeedsTimeout | dify-batch-processor/poller/main.py:88-114 | Errors on the status path mark the job FAILED and the scan continues. Without a timed-out job it never ends early. |
| Poller.PollCycle | dify-batch-processor/poller/main.py:39-116 | An unconfigured key table gives 500 before the query. Only PROCESSING jobs change, and only to SUCCESS or FAILED. No PROCESSING job gives "No jobs to process." with no change. A completed scan answers "Polled N jobs." with N the number of PROCESSING jobs. With the keys configured and no PROCESSING job timed out, the answer is 200. |
| Poller.PollCycleEach | dify-batch-processor/poller/main.py:39-116 | As written, over a duplicate-free query order where every timed-out PROCESSING job is of the analysis workflow, the cycle answers "Polled N jobs.". Each PROCESSING job ends as `PollJob` leaves it from the store the cycle read. |
| Poller.StaleObjectName | dify-batch-processor/poller/main.py:70-78 | In the corrected code only: a timed-out job whose workflow id matches neither setting, scanned after a timed-out analysis job, is settled from the earlier job's object. |
| Poller.WorkbookTimeoutCycle | dify-batch-processor/poller/main.py:70-78 | A cycle whose one PROCESSING job is a timed-out workbook job with no object answers 500 with no write as written. With the corrected matcher it marks the job FAILED with the timeout message and answers "Polled 1 jobs.". |
| Poller.RunSucceededScenario | dify-batch-processor/poller/main.py:96-104 | A single fresh PROCESSING job whose run the engine reports `succeeded` becomes SUCCESS, others are unchanged, and the reply is "Polled 1 jobs.". |
| Poller.TimedOutScenario | dify-batch-processor/poller/main.py:67-81 | A job stamped 31 minutes ago under a 30-minute timeout, with a fallback name (as written, only for the analysis workflow) but no object, becomes FAILED with "Job timed out in poller after 30 minute(s).", whatever the engine says. |
| Pipeline.LoaderTaskReachesEngine | dify-batch-processor/loader/main.py:272-278 | A loader task for a "{workflow}_{rest}" id with a non-empty payload is accepted by the worker. The worker marks that id PROCESSING and calls the engine with that payload and that workflow's key. |
| Pipeline.LoaderStoresNoData | dify-batch-processor/loader/main.py:223-230 | Admission stores no payload for a job that had none. |
| Pipeline.DispatchedWithoutDataRejected | dify-batch-processor/dispatcher/main.py:55-59 | The dispatcher's task for a job without a stored payload is answered 400 by the worker, with no write. |
| Pipeline.QueuedOnlyLeftByWorker | dify-batch-processor/dispatcher/main.py:39-41 | A QUEUED job is not re-admitted by the loader, selected by the dispatcher or changed by the poller. |
| Pipeline.CrashedWorkerJob | dify-batch-processor/worker/main.py:111-122 | A worker that dies during the call leaves a PROCESSING job with no workflow id or run id. The poller skips it while fresh. Once it has timed out, it ends the cycle without a write. As written, this needs only the analysis workflow id to be set. With the corrected matcher, the workbook id must be set too and no earlier name bound. |
| Pipeline.StuckPoller | dify-batch-processor/poller/main.py:70-78 | Such a job at the head of the PROCESSING query makes every poll cycle answer 500 and change nothing, so the poller makes no progress. |

### Behaviour of the code worth noting

- Only PROCESSING counts against the cap. QUEUED jobs are not counted, so QUEUED plus PROCESSING can exceed the cap (`Dispatcher.QueuedNotCounted`).
- The worker overwrites the record (`save_to_datastore`). It never stores `workflow_run_id` or `workflow_id`, so the poller's status path never applies to a record the worker wrote. Every job settles through the worker or the timeout path.
- The loader writes no `data`. The dispatcher's task for a loader job therefore carries an empty payload, and the worker answers it 400 (`Pipeline.DispatchedWithoutDataRejected`). The loader also hands the worker its own task, with the payload, so a job can reach the worker once from each.
- `get_entities_from_datastore`, imported by the dispatcher and the poller, is not defined in `shared/utils.py`, which has `get_items_from_datastore`. It is modelled as the evident equality query on `status`, with a `limit`.
- A worker that dies during the engine call leaves a PROCESSING record without a workflow id. With the analysis workflow id configured, once that record times out the poll cycle ends with 500. As written, the workbook case raises; with the corrected matcher, the job has no fallback name. When the record is first in the query, this repeats on every cycle (`Pipeline.StuckPoller`).
- A timed-out job of the workbook workflow also ends the poll cycle with 500, as written (see Findings).

## Left out

- The Google Sheets, Datastore, Cloud Tasks, Secret Manager, S3 and HTTP clients are replaced by the parameters listed above. Logging is left out.
- Concurrency between overlapping runs, and the loader's `db.transaction()`, are left out: each run is atomic and sequential.
- One clock value serves a whole run. The poller reads the clock once per job, and the writers use local naive time, which the model takes to be UTC.
- JSON encoding is left out. `data` is an opaque map of optional strings, and `str(dict)` renderings are opaque strings.
  - The worker's non-object engine reply at top level is left out.
  - The dispatcher's and the poller's `json.loads` of a stored `data` is left out; no loop ever stores one.
  - Non-string ids in a task body are left out.
- Failures of the worker's own store writes, and S3 transport errors other than "missing", are left out.
- Configuration attributes that the config classes do not define are taken to exist. The poller's undefined workbook setting is the exception: it is modelled (see Findings).
  - The worker's are read at import, at worker/main.py:23,27.
  - The loader's credential settings (`GOOGLE_APPLICATION_CREDENTIALS`, `GOOGLE_SHEETS_CREDENTIALS_SECRET_ID`) are read by `get_gcp_credentials` at loader/main.py:31-42. `main` calls it inside its `try` at loader/main.py:184, so as written the resulting `AttributeError` would make a run answer 500 before reading the sheet.
  - The loader's service-account email is read at loader/main.py:268 inside `create_cloud_task`. That read happens once per admitted id, after its admission has committed. As written, the error there would end the run the way the model's failed task creation (`CreateError`) does: the admission is kept and the run answers 500.
- A null `error` in a `failed` run reply to the poller is left out; the model takes it as missing.
- Poller.RunDecision: its own contract states only the range of outcomes and the missing-key case. `Poller.RunStatusMapping` states the case-by-case mapping.
- Poller.PollCycle: does not state each job's outcome. `Poller.PollCycleEach` carries `Poller.PollJob`'s outcome to every job of a cycle as written. `Poller.TimedOutJob`, `Poller.SkippedJob` and `Poller.RunStatusMapping` state the outcome per job.
- Poller.PollJobs: its own contract is only a frame. `Poller.PollJobsEach` states each scanned job's outcome for the scan as written. With the corrected matcher, a job's outcome can depend on an earlier job's object name (`Poller.StaleObjectName`), so no such statement is made there.
- Loader.LoaderMain, Dispatcher.DispatcherMain, Poller.PollerMain: fix the defaults (header row 1, chunks of 300, filter "target" = "TRUE", cap 2, timeout 20 minutes) and carry no contract of their own.

## Findings

| source | as written | input that shows it | evidently intended | confidence | as-written member | corrected member |
|---|---|---|---|---|---|---|
| dify-batch-processor/poller/main.py:74 | The second `case` reads `Config.WORKBOOK_WORKFLOW_ID`, which the poller configuration does not define; it defines `PASSAGE_WORKBOOK_WORKFLOW_ID`. Any timed-out job not of the analysis workflow raises `AttributeError`, which nothing catches, so the poll cycle ends with 500. | Timeout 20 minutes, analysis id "wf-a", workbook id "wf-b", and one PROCESSING "wf-b" job for group 7, passage 3, stamped 21 minutes ago, with no object in the bucket. The cycle answers 500 and the job stays PROCESSING. | The workbook case matches the configured workbook id and checks "passage-workbook/7/3/result.json". The job becomes FAILED with the timeout message. | not executed | Poller.WorkbookTimeoutCycle | Poller.FallbackPath |
