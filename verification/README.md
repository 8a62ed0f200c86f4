# A model of the NFS-e collector back end

The repository collects electronic service invoices (NFS-e) for many companies: a worker reads
the national portal, a scheduler and an API create executions, and a database, an object store
and a queue sit between them. This project models the parts where state, order and failure
matter, and proves what they keep. Tables are maps or sequences of rows, a transaction is one
or several steps, the queue is a sequence of jobs, and the portal is an append-only log read
through replies of any size.

| File | What it models |
|---|---|
| `Fetcher.dfy` | the pagination loop over the portal, against "filter the log by NSU" |
| `MixedNsus.dfy` | logs in which some NSUs are text: when a call goes on, what it covers, what it repeats |
| `Collection.dfy` | one run: the callback, its counters, the unique index, the guarded cursor |
| `NoteByNote.dfy` | the same run told note by note: rows, objects, counters and cursor without folding |
| `Coverage.dfy` | any number of overlapping, failing and crashing runs over one database |
| `CoverageRuns.dfy` | one of those runs by itself, against the methods of `Collection.dfy` |
| `SchedulerLocks.dfy` | scheduler transactions statement by statement, workers and API calls |
| `SchedulerRows.dfy` | what each of those statements does to the execution rows, the jobs and what is in flight |
| `SchedulerTurns.dfy` | a tick, a worker and a crash that nothing disturbs, from start to end |
| `Tick.dfy` | one scheduler tick by itself: selection, accounting, progress |
| `Executions.dfy` | creation of executions by the API, deduplicated on a key |
| `Schedules.dfy` | schedule edits against ticks, and the freshness of `next_run_at` |
| `Tokens.dfy` | refresh-token rotation as linked chains |
| `NsuTracker.dfy` | the three stores of the last NSU and the crash-safe state file |
| `Help.dfy` | help counters and the two aggregations of the insights endpoint |
| `Cnpj.dfy` | CNPJ check digits and exactly what they miss |
| `Batches.dfy` | the division of the clients into batches |
| `Workers.dfy` | execution statuses and workers that pick jobs, shared by the modules above |
| `Wrappers.dfy` | `Option`, `Result` and the digit filter shared by the modules |

`dafny verify dfyconfig.toml` checks the whole project. Classes and methods stand for the code
that works by changing things step by step; each is tied to a function of its inputs or of the
old state, and the lemmas are about those functions. Names in Portuguese follow the source.

What the code cannot decide is a parameter: the replies of the portal, whether an upload, an
insertion or an enqueue succeeds, the cron library, clocks, generated ids and hashes, and the
answers of the two GROUP BY queries.

## Where the code and its documentation disagree

The model follows the code.

- `collector.py` documents `fatal_rejected=True` for a rejected lot (lines 113 and 182); no
  path sets it, so the model passes `false` to the status decision. A first request that is
  rejected therefore ends in an empty window and `succeeded` (`RejectedWindowSucceeds`), and a
  closed run is `failed` if and only if no item is ok and something failed (`FailedIff`).
- The accumulation loop of `fetcher.py` coerces NSUs to integers, while the step of the
  pagination ignores those that are not integers already. A reply below the limit lets the
  call go on if and only if it holds an integer NSU above the cursor (`GoesOnIffInteger`); a
  call collects a document twice if and only if it goes on, to a reply with documents, from one
  whose largest NSU is past its largest integer NSU (`RepeatsIffLags`), and a chain of calls
  does if and only if one of its calls does so (`ChainRepeatsIffLags`); up to the cursor
  returned nothing is lost either way (`ChainCovers`).
- Reuse of a refresh token is documented to revoke its chain. The session that does it is
  rolled back when the call raises, so `/auth/refresh` commits nothing; `ReuseIsRolledBack`
  says exactly when a live token remains. The repository lists this as open.
- The cursor of a company may pass a note that has no row: `CursorPassesCaughtNote` gives the
  run. A run does it if and only if its guard lets the cursor move and none of its callbacks
  reached an insertion that covers the note (`CursorPassesRowlessIff`); over all runs a note the
  cursor passed is without a row if and only if no callback ever recorded it
  (`PassedNoteIsRowlessIff`).
- `POST /executions` does not take the company slot of the scheduler, and breaks the rule of
  one execution in flight per company in two ways: beside what is already in flight
  (`ApiIgnoresTheSlot`), or, finding nothing open, between the check and the insertion of a tick
  (`ApiBetweenCheckAndInsert`). The condition `ApiSafe` names both: the company has nothing in
  flight, and no transaction has checked it without having inserted. Runs whose API calls meet
  it keep the rule (`SafeApiKeepsExclusion`), and a call that does not meet it breaks the rule
  at once or at the next insertion of a tick (`ApiSafeIff`).
- `FileNsuSource` is documented to write its file at every `set`. It writes when the value in
  memory rises, so a `set` repeated after one that raised returns without a save
  (`RepeatedSetMayNotSave`); what a returned `set` promises is on the disk if and only if the
  value was new to the memory or the disk held as much (`ReturnedSetIsOnDiskIff`).
- No code ends an execution whose worker died: it stays in flight and blocks its company
  (`CrashedExecutionIsStuck`). The runbook of the stuck queue ends it by hand.
- Disabling a schedule between the two halves of a tick leaves it with a next run:
  `DisablingDuringATickLeavesANextRun`; `TickFreshIff` is the exact condition.

## Model

| member | source | states |
|---|---|---|
| Fetcher.HighestIsMaximum | packages/worker-core/worker_core/fetcher.py:331-340 | the cursor kept by the loop is the maximum of where it started and the coerced NSUs it saw, and one of them |
| Fetcher.MaxNsuDoLote | packages/worker-core/worker_core/fetcher.py:707-719 | bounds every integer NSU of a batch and is one of them, or 0; NSUs that are not integers have no say |
| Fetcher.Acumular | packages/worker-core/worker_core/fetcher.py:331-343 | keeps exactly the prefix of the batch that the limit allows (the limit is looked at after each append), and reports whether the limit was met |
| Fetcher.BuscarTodosDfeNovos | packages/worker-core/worker_core/fetcher.py:290-388 | for every portal with bounded NSUs the loop ends, and returns what the recursive pagination says, with the highest NSU collected; it fails if and only if the last reply it looks at is an exception, with its code, and stops as rejected if and only if that reply is a rejection |
| Fetcher.BuscarComFonte | packages/worker-core/worker_core/fetcher.py:290-388 | the same with an NSU store: the first cursor is read from it and the last one raises it; the call fails exactly on an exception of the portal, which leaves the store alone |
| Fetcher.EndsAsTheFinalReply | packages/worker-core/worker_core/fetcher.py:300-388 | how a call ends is decided by its last reply: it fails exactly on an exception, with its code, and otherwise stops on a rejection, on nothing to collect, or on a batch, there for the limit exactly when the limit is met |
| Fetcher.AfterIsSuffix | packages/worker-core/worker_core/fetcher.py:252-388 | in an ordered log, filtering by NSU is cutting off a prefix |
| Fetcher.Advance | packages/worker-core/worker_core/fetcher.py:331-382 | reading a prefix of what follows a cursor and moving the cursor to its highest NSU loses nothing and repeats nothing |
| Fetcher.ServedIsBounded | packages/worker-core/worker_core/fetcher.py:355-382 | the log maximum minus the cursor is a termination measure of the loop against a truthful portal, even when some NSUs are text |
| Fetcher.PaginateCollects | packages/worker-core/worker_core/fetcher.py:290-388 | from any request on, with any reply sizes and a log growing between replies, a call collects a prefix of the filtered log, cut exactly at the limit, and everything its first snapshot held once the portal is drained |
| Fetcher.PaginationRefinesFilter | packages/worker-core/worker_core/fetcher.py:290-388 | against a fixed log a call whose last reply is neither a rejection nor an exception returns exactly the documents above the cursor in order (the first k under a limit of k) and the last NSU as new cursor |
| Fetcher.ResumingLosesNothing | packages/worker-core/worker_core/fetcher.py:331-388 | a chain of calls with any limits, rejections and exceptions over a growing log, each starting from the cursor the last returned, concatenates to a prefix of the filtered log, and to all of it once the last call drained |
| MixedNsus.GoesOnIffInteger | packages/worker-core/worker_core/fetcher.py:331-373 | a reply below the limit ends the call for lack of progress if and only if it holds no integer NSU above the cursor; otherwise the call goes on from the largest integer |
| MixedNsus.TextNsusStopPagination | packages/worker-core/worker_core/fetcher.py:333-339 | a batch whose NSUs are all text ends the pagination whatever the portal still has |
| MixedNsus.CallCovers | packages/worker-core/worker_core/fetcher.py:290-388 | against a log whose coerced NSUs grow, a call, however it ends, has collected everything between its first cursor and the one it returns, and nothing else |
| MixedNsus.UnreadableIsNeverNew | packages/worker-core/worker_core/fetcher.py:331-340 | a document whose NSU is missing or cannot be read is never above a stored cursor |
| MixedNsus.ChainCovers | packages/worker-core/worker_core/fetcher.py:290-388 | the same for chained calls with any limits, rejections and exceptions over a growing log |
| MixedNsus.RepeatsIffLags | packages/worker-core/worker_core/fetcher.py:331-382 | a call collects a document twice if and only if it goes on, to a reply with documents, from one whose largest NSU exceeds its largest integer NSU |
| MixedNsus.ChainRepeatsIffLags | packages/worker-core/worker_core/fetcher.py:290-388 | chained calls with any limits, rejections and exceptions return a document twice if and only if some call of the chain that returned went on from such a reply |
| MixedNsus.MixedBatchRepeats | packages/worker-core/worker_core/fetcher.py:331-382 | an integer NSU of 5 and a text one of 7 in one reply: the second document is returned twice |
| MixedNsus.EverythingAfterFive | packages/worker-core/worker_core/fetcher.py:331-382 | a truthful portal gives those replies |
| Collection.Nfse | packages/worker-core/worker_core/fetcher.py:450-478 | keeps exactly the documents of the NFS-e type |
| Collection.NfseConcat | packages/worker-core/worker_core/fetcher.py:450-478 | filtering keeps order and repetitions: it distributes over concatenation |
| Collection.Database.InsertExecutionItem | packages/worker-core/worker_core/jobs.py:1021-1071 | inserts one row unless the tenant already holds the key, and says which |
| Collection.ExecutionRun.OnProgress | packages/worker-core/worker_core/jobs.py:714-782 | rows, stored objects and counters after the callback on one item: dry run, storage error, exception, duplicate, foreign, parse error |
| Collection.ExecutionRun.Account | packages/worker-core/worker_core/jobs.py:771-776 | counts an item seen for the first time as failed, not issued by the company, or ok |
| Collection.ExecutionRun.FetchNfse | packages/worker-core/worker_core/collector.py:184-301 | the documents above the cursor, filtered and handed to the callback in order, with a summary that counts each status |
| Collection.ExecutionRun.HandOver | packages/worker-core/worker_core/collector.py:245-277 | the loop over the notes: each status counted, every note handed to the callback in order |
| Collection.StatusesPartition | packages/worker-core/worker_core/collector.py:245-254 | the three counts of a summary add up to the notes |
| Collection.ExecutionRun.RunExecution | packages/worker-core/worker_core/jobs.py:686-837 | every way a run ends: credential failure, portal failure, or a closed execution with its counters and the cursor moved only under the guard |
| Collection.ExecutionRun.Close | packages/worker-core/worker_core/jobs.py:821-837 | the final status, the recorded window and counters, and the guarded cursor |
| Collection.StepConserves | packages/worker-core/worker_core/jobs.py:714-782 | each item is counted once and is a new row, a duplicate or caught, and both a row and caught when an acknowledgement was lost |
| Collection.CountersConserve | packages/worker-core/worker_core/jobs.py:714-782 | `total_nfse` is `items_ok` + `items_fail` + duplicates + inserted foreign items, for every run |
| Collection.RowsConserve | packages/worker-core/worker_core/jobs.py:714-782 | rows gained plus duplicates plus caught items is the number of notes, plus the insertions whose acknowledgement was lost; a dry run gains none |
| Collection.RerunIsIdempotentIff | packages/worker-core/worker_core/jobs.py:757-768 | a run in which nothing raises leaves the table alone if and only if every note of its window had its key stored |
| Collection.RunStoresKeys | packages/worker-core/worker_core/jobs.py:1040-1056 | after such a run every key of the window is stored |
| Collection.StoredWindowChangesNothing | packages/worker-core/worker_core/jobs.py:714-782 | a window whose keys are all stored, whatever raises in the run, changes no row and counts nothing but duplicates and caught items |
| Collection.StoredWindowCountsZero | packages/worker-core/worker_core/jobs.py:757-776 | when nothing raises, every note of such a window is a duplicate and the counters are zero |
| Collection.SecondRunCountsNothing | packages/worker-core/worker_core/jobs.py:757-776 | so running a window whose notes carry keys again, in any execution of the tenant, changes no row and counts zero |
| Collection.RejectedWindowSucceeds | packages/worker-core/worker_core/collector.py:223-242 | a rejected first request gives an empty window, and the run ends `succeeded` with its cursor unmoved |
| Collection.FailedIff | packages/worker-core/worker_core/jobs.py:1175-1192 | a closed run is `failed` if and only if no item is ok and an item or an upload failed, `partial` if and only if some item is ok beside that, `succeeded` if and only if nothing failed, and `failed` whenever it is flagged as rejected |
| Collection.CursorPassesCaughtNote | packages/worker-core/worker_core/jobs.py:777-837 | a run whose second insertion raises ends `partial` and its cursor passes the note without a row |
| Wrappers.DigitsConcat | packages/worker-core/worker_core/jobs.py:64-65 | the digit filter distributes over concatenation |
| Wrappers.DigitsKeepsDigits | packages/worker-core/worker_core/jobs.py:64-65 | it keeps exactly the digits, and a text of digits as it is |
| NoteByNote.ItemOfDocument | packages/worker-core/worker_core/collector.py:319-385 | every field of an item, told from the document: the key is the first of three that is not empty, a missing or malformed XML is a parse error |
| NoteByNote.IssuedIff | packages/worker-core/worker_core/jobs.py:68-70 | a note is the company's own if and only if its issuer and the company have the same fourteen digits, however they are written |
| NoteByNote.RowOfNote | packages/worker-core/worker_core/jobs.py:1021-1071 | every column of the row of a note, told from the document and what the upload did |
| NoteByNote.StatusesByDocument | packages/worker-core/worker_core/collector.py:245-254 | the three counts of a summary count the notes by what their XML is |
| NoteByNote.StoredAfterRun | packages/worker-core/worker_core/jobs.py:1040-1056 | the keys stored after a run are those stored before and those of the notes that reached the insertion |
| NoteByNote.RunNoteByNote | packages/worker-core/worker_core/jobs.py:714-782 | each counter of a run is the number of notes with the fates it counts, and the new rows are those of the notes that leave one, in order; the fate of a note is told from the document, the table before the run and the earlier notes |
| NoteByNote.ObjectsIff | packages/worker-core/worker_core/jobs.py:728-745 | a run stores one object for exactly the notes with XML whose upload worked |
| NoteByNote.GuardOnCounters | packages/worker-core/worker_core/jobs.py:821-837 | the cursor may move if and only if no upload failed, some item is ok or none failed, the run is real and its window is not empty |
| NoteByNote.CursorAfterRun | packages/worker-core/worker_core/db_nsu.py:102-126 | under that condition the cursor of the company is the end of the window; otherwise, and for every other company, it is where it was |
| NoteByNote.CalmRunMovesTheCursor | packages/worker-core/worker_core/jobs.py:821-837 | a run in which everything works ends `succeeded` with its cursor at the end of the window |
| NoteByNote.FetchedIsTheLog | packages/worker-core/worker_core/collector.py:184-221 | against a truthful log, without rejection or exception, a run fetches exactly what the log has above the stored cursor |
| Coverage.SaveAccounts | packages/worker-core/worker_core/jobs.py:714-782 | after the callback on a real note the note has a row or was caught |
| Coverage.CollectedWindow | packages/worker-core/worker_core/collector.py:206-221 | what one call collected contains every note between its two cursors, also when some NSUs are text |
| Coverage.NextKeeps | packages/worker-core/worker_core/jobs.py:647-837 | every event of every run keeps the coverage invariant, removes no row or object and lowers no cursor |
| Coverage.CaughtIff | packages/worker-core/worker_core/jobs.py:777-782 | the catch-all counts a note if and only if its callback raised before the insertion or lost the answer of the insertion |
| Coverage.CursorMovesIff | packages/worker-core/worker_core/jobs.py:830-837 | a cursor moves if and only if a real run of the company closes with a counter guard that holds and a window that ends past it, and then to that end |
| Coverage.CursorNeverPassesUnaccountedNote | packages/worker-core/worker_core/jobs.py:714-837 | in every state reached by overlapping, failing and crashing runs over logs of integer and text NSUs, every note up to a company's cursor has a row of its tenant and key or was counted by the catch-all |
| Coverage.RunRowIff | packages/worker-core/worker_core/jobs.py:714-782 | after a run a note has a row if and only if it had one or some callback of the run reached an insertion that covers it |
| Coverage.CursorPassesRowlessIff | packages/worker-core/worker_core/jobs.py:714-837 | a run moves the cursor past a note without a row if and only if its guard lets the cursor move, the note had no row and no callback recorded it |
| Coverage.RowIffRecorded | packages/worker-core/worker_core/jobs.py:714-837 | in every reachable state a note has a row if and only if some callback of some real run recorded it |
| Coverage.PassedNoteIsRowlessIff | packages/worker-core/worker_core/jobs.py:714-837 | a note the cursor passed is without a row if and only if no callback recorded it, and then the catch-all counted it |
| Coverage.CursorNeverRegresses | packages/worker-core/worker_core/db_nsu.py:102-126 | along every run of the system cursors never move back and rows are never changed or removed |
| Coverage.ClosedRunConserves | packages/worker-core/worker_core/jobs.py:710-778 | a closed run, real or dry, counted exactly the notes it fetched, whatever ran beside it |
| Coverage.OpenRunConserves | packages/worker-core/worker_core/jobs.py:710-778 | a run under way has counted exactly the notes it handed over |
| Coverage.DryRunTouchesNothing | packages/worker-core/worker_core/jobs.py:87-97 | no event of a dry run touches rows, stored objects, cursors or the catch-all |
| Coverage.RowsNameStoredObjects | packages/worker-core/worker_core/jobs.py:728-768 | in every reachable state the object key of a row names a stored object |
| Coverage.ReachKeepsIndex | apps/api/alembic/versions/0005_execution_items.py:127-133 | one row per tenant and key in every reachable state |
| Coverage.MissingObjectStaysMissing | packages/worker-core/worker_core/jobs.py:746-768 | a row inserted after a storage error keeps its missing object key in every later state |
| CoverageRuns.RunAloneIsRunExecution | packages/worker-core/worker_core/jobs.py:647-837 | a run that nothing interleaves with leaves the rows, objects, caught notes and cursor of the fold over what it fetched, and nothing when the portal raises |
| CoverageRuns.EveryLogIsReachable | packages/worker-core/worker_core/fetcher.py:290-388 | every increasing log is the log of some reachable state |
| SchedulerLocks.NextKeeps | apps/worker/worker/scheduler.py:402-462 | every statement of every scheduler, worker and API call keeps the invariants on locks, rows, queue and slots |
| SchedulerLocks.TickMutualExclusion | apps/worker/worker/scheduler.py:219-281 | whatever interleaves, ticks have at most one execution in flight per company, counting uncommitted rows |
| SchedulerLocks.MutualExclusion | apps/worker/worker/scheduler.py:219-281 | schedulers and workers alone keep at most one queued or running execution per company |
| SchedulerLocks.StepKeepsExclusionIff | apps/worker/worker/scheduler.py:219-281 | one event keeps at most one execution in flight per company if and only if it does not insert an open row for a company that has one |
| SchedulerLocks.ExclusionIff | apps/worker/worker/scheduler.py:402-462 | over any run of schedulers, workers and API calls, every state has at most one in flight per company if and only if no event inserts for a busy company |
| SchedulerLocks.SafeApiKeepsExclusion | apps/worker/worker/scheduler.py:219-281 | when every API call that enqueues finds nothing in flight for its company and no tick between its check and its insertion, every state has at most one in flight per company |
| SchedulerLocks.ApiSafeIff | apps/api/api/executions/routes.py:331-432 | after such calls a further API call meets that condition if and only if it leaves one in flight, at once and after whatever insertion comes next |
| SchedulerLocks.ApiIgnoresTheSlot | apps/api/api/executions/routes.py:330-432 | an API insertion puts a second execution in flight beside whatever is there |
| SchedulerLocks.ApiBetweenCheckAndInsert | apps/api/api/executions/routes.py:331-432 | an API insertion between the check and the insertion of a tick leaves both in flight, though the API found nothing open |
| SchedulerLocks.ApiCollidesWithNothingOpen | apps/api/api/executions/routes.py:331-432 | such a run from an empty database |
| SchedulerLocks.EnqueuedOnce | apps/worker/worker/scheduler.py:415-444 | no execution is ever enqueued twice |
| SchedulerLocks.WaitsClimb | apps/worker/worker/scheduler.py:193-230 | along two waits the wanted locks rise in (created_at, id) order, then to schedule rows |
| SchedulerRows.WaitsClimbInTableOrder | apps/worker/worker/scheduler.py:193-230 | in every reachable state the slots wanted along two waits rise by creation instant, then by id |
| SchedulerLocks.NoCircularWait | apps/worker/worker/scheduler.py:402-462 | no chain of waiting scheduler transactions closes, in any reachable state |
| SchedulerLocks.SomeTransactionRuns | apps/worker/worker/scheduler.py:402-462 | whenever transactions are open, one of them does not wait |
| SchedulerRows.RowsAfter | apps/worker/worker/scheduler.py:402-462 | what every statement leaves of every row, committed or not: it creates it, takes it away with a rollback, gives it a status or leaves it; a commit changes none |
| SchedulerRows.CommittedAfter | packages/worker-core/worker_core/db.py:80-90 | what everybody sees grows by exactly the rows of a transaction that commits and of an API call |
| SchedulerRows.JobsAfter | apps/worker/worker/scheduler.py:415-444 | the queue grows by exactly the rows just inserted that it accepted |
| SchedulerRows.InFlightAfterIff | apps/worker/worker/scheduler.py:402-462 | an execution is in flight after an event if and only if the event starts it, or it was and the event is not its rollback, its refused enqueue or its end by a worker |
| SchedulerRows.JobHasRowIff | apps/worker/worker/scheduler.py:415-462 | over every run a job names a row, committed or of an open transaction, if and only if no rollback took that row away |
| SchedulerRows.EveryJobHasItsRow | apps/worker/worker/scheduler.py:415-462 | without rollbacks every job has its row |
| SchedulerTurns.TurnResult | apps/worker/worker/scheduler.py:412-454 | the turn of one company: a busy one is left alone, an idle one gets exactly one row, with a job unless the queue refuses it |
| SchedulerTurns.TickAloneFires | apps/worker/worker/scheduler.py:402-462 | a tick that finds its locks free commits one row for exactly the companies with nothing in flight, queued with a job or failed, gives every lock back and changes nothing else |
| SchedulerTurns.WorkAloneFinishes | packages/worker-core/worker_core/jobs.py:647-837 | a worker changes exactly its own row, to the status it ends with; a job whose row is not committed is dropped |
| SchedulerTurns.CrashedExecutionIsStuck | docs/runbooks/fila-travada.md:197-208 | an execution whose worker died while running keeps its status in every later state, and its company stays busy |
| Tick.Scheduler.SelectDueSchedules | apps/worker/worker/scheduler.py:167-190 | exactly the enabled schedules whose next run has come, ordered by next run and id |
| Tick.DueListIsUnique | apps/worker/worker/scheduler.py:167-190 | the selection has one answer |
| Tick.Scheduler.HasInflightExecution | apps/worker/worker/scheduler.py:233-245 | true if and only if the company has a queued or running row |
| Tick.TargetsAre | apps/worker/worker/scheduler.py:193-216 | the targets are the live companies of the schedule's tenant, all of them or the one it names |
| Tick.AliveInOrder | apps/worker/worker/scheduler.py:208-216 | they come in the order of the table, which is the order of the locks |
| Tick.Scheduler.FireCompanies | apps/worker/worker/scheduler.py:412-454 | rows, occurrences, jobs and counts after the loop over the companies of one schedule |
| Tick.Scheduler.ProcessSchedule | apps/worker/worker/scheduler.py:390-461 | one schedule: skipped on a bad cron or a failed lookup, otherwise fired and its row updated |
| Tick.Scheduler.RunTick | apps/worker/worker/scheduler.py:344-479 | the whole tick over the due list: tables, summary and schedule rows |
| Tick.FireAllGrows | apps/worker/worker/scheduler.py:412-454 | every target is counted once; rows, occurrences and jobs grow by exactly what is counted, the new jobs being the new queued rows |
| Tick.EachTargetOnce | apps/worker/worker/scheduler.py:412-454 | company by company, each target gets exactly one new execution or one overlap occurrence |
| Tick.FireAllOpens | apps/worker/worker/scheduler.py:412-454 | a schedule opens an execution, or one that failed to enqueue, for exactly its companies with nothing in flight |
| Tick.OccurrencesAreOverlaps | apps/worker/worker/scheduler.py:284-302 | every occurrence names its schedule and a target that has an execution in flight |
| Tick.TickOpensIff | apps/worker/worker/scheduler.py:381-461 | over a whole tick a company gets a new execution if and only if it had nothing in flight and is a target of a due schedule that is not skipped |
| Tick.TickAccounts | apps/worker/worker/scheduler.py:381-479 | `created + overlaps + enqueue_failed` is the number of targets of the due schedules that passed cron and lookup, with as many rows, occurrences and jobs |
| Tick.TickKeepsOneOpen | apps/worker/worker/scheduler.py:412-424 | a tick never opens a second execution for a company, even when two due schedules share it |
| Tick.LastRunMovesIffCreated | apps/worker/worker/scheduler.py:305-336 | only picked schedules whose next run can be computed and whose companies can be read change: `next_run_at` to the next run of the selected row, `last_run_at` to the clock if and only if they created an execution, no other column |
| Tick.OnlySkippedStayDue | apps/worker/worker/scheduler.py:386-401 | with a next run after its base, the schedules due again at the same instant are exactly the skipped ones |
| Tick.SecondTickIsIdle | apps/worker/worker/scheduler.py:344-366 | a second tick at the same instant picks nothing when nothing was skipped |
| Executions.FindOpen | apps/api/api/executions/routes.py:218-256 | finds the newest open row of the key, and none only when there is none |
| Executions.Distinct | apps/api/api/executions/schemas.py:45-57 | the same members once each |
| Executions.DistinctKeepsOrder | apps/api/api/executions/schemas.py:45-57 | first occurrences keep their order |
| Executions.Validate | apps/api/api/executions/routes.py:288-328 | refuses an empty list, unknown companies, missing credentials or a queue that is down, in this order, naming exactly the companies at fault once each |
| Executions.ExecutionsApi.CreateExecutions | apps/api/api/executions/routes.py:288-432 | succeeds if and only if the list is not empty, every company and credential exists and the queue is up, and then target i names a row of the i-th distinct company with the trigger and period asked for; otherwise changes nothing and answers the first error that applies |
| Executions.ExecutionsApi.CreateReprocess | apps/api/api/reprocess/routes.py:245-477 | the same for what items, NSUs or a period ask for, with targets for exactly those companies and periods; the parent row names them and fails if and only if every one was new and refused by the queue, and one audit entry counts them |
| Executions.ResolveByItems | apps/api/api/reprocess/routes.py:77-118 | one key per distinct company and period of the items' parents |
| Executions.ScopeKeys | apps/api/api/reprocess/routes.py:77-152 | a scope resolves to exactly the companies and periods it asks for: those of the items' parents, today or the span of the dates, or the period given |
| Executions.TargetsNameKeys | apps/api/api/executions/routes.py:331-432 | target i of a request names a row of key i, also after the enqueue phase |
| Executions.CreateRowsKeeps | apps/api/api/executions/routes.py:331-366 | the insertion phase keeps one open row per key, and each target is the open row of its key |
| Executions.NewRowsAreCreated | apps/api/api/executions/routes.py:331-366 | every row the insertion phase adds is the row of a target it reports as created |
| Executions.EnqueueEffect | apps/api/api/executions/routes.py:369-432 | the enqueue phase enqueues every inserted row that was accepted, once, and no other, and fails the refused ones |
| Executions.OneOpenExecutionPerKey | apps/api/api/executions/routes.py:218-256 | in every state reached by requests, ticks and workers a key has at most one open execution |
| Executions.EnqueuedOnce | apps/api/api/executions/routes.py:369-432 | no execution is enqueued twice |
| Executions.QueuedRowsHaveJobs | apps/api/api/executions/routes.py:369-432 | in every reachable state every queued row has a job |
| Executions.TickOpensIff | apps/worker/worker/scheduler.py:412-454 | a tick opens an execution, or one that failed to enqueue, if and only if the company has none open |
| Executions.WorkAloneFinishes | packages/worker-core/worker_core/jobs.py:647-837 | a worker that nothing disturbs takes its row from queued to the status it ends with, and changes no other |
| Executions.RequestAnswers | apps/api/api/executions/routes.py:330-432 | a request answers one execution per key, still open unless it was inserted and refused by the queue, and enqueued when it was inserted and accepted |
| Executions.RepeatedRequestIsIdempotent | apps/api/api/executions/routes.py:330-432 | repeating a request while its executions are open, after any other events, returns the same ids, inserts nothing and enqueues nothing |
| Schedules.ScheduleTable.CreateSchedule | apps/api/api/schedules/routes.py:233-279 | succeeds exactly on a valid cron, zone and company and a computable next run; the new row is fresh, with the next run of its cron and zone; otherwise the error names the check that failed |
| Schedules.ScheduleTable.UpdateSchedule | apps/api/api/schedules/routes.py:317-405 | succeeds exactly on a known row, a payload that is not empty, no null for a required column, a known company and a computable next run; then every named column has its value and the next run follows from the two rows, otherwise nothing changes and the error names the check that failed |
| Schedules.PatchedFields | apps/api/api/schedules/routes.py:345-391 | an edit column by column, the next run told from the row before and after, and exactly when computing it fails |
| Schedules.TickedFields | apps/worker/worker/scheduler.py:305-336 | a tick writes the two instants and no other column, the last run only when it created something |
| Schedules.PatchFreshIff | apps/api/api/schedules/routes.py:345-391 | an edit leaves `next_run_at` fresh if and only if it recomputed or cleared it or it was fresh before |
| Schedules.TickFreshIff | apps/worker/worker/scheduler.py:305-336 | a tick's write leaves the row fresh if and only if it is still enabled and the instant is one of its current cron and zone |
| Schedules.SerialisedRunsStayFresh | apps/api/api/schedules/routes.py:345-391 | over serialised edits and ticks, enabled holds exactly when there is a next run, and it comes from the current cron and zone |
| Schedules.RowsFollowEvents | apps/api/api/schedules/routes.py:233-430 | which rows each event creates, edits, deletes or leaves with all but their two instants |
| Schedules.TickAllLeavesNothingDue | apps/worker/worker/scheduler.py:381-461 | after a whole tick the schedules still due are exactly those it skipped or could not reschedule |
| Schedules.EnabledAlwaysHasNextRun | apps/worker/worker/scheduler.py:390-461 | whatever interleaves, an enabled schedule has a next run |
| Schedules.DisablingDuringATickLeavesANextRun | apps/worker/worker/scheduler.py:305-336 | the interleaving that leaves a disabled schedule with a next run |
| Tokens.RefreshTokens.Issue | apps/api/api/security/tokens.py:55-89 | appends one live token, or fails on a hash already present |
| Tokens.RefreshTokens.CollectChain | apps/api/api/security/tokens.py:92-105 | the recursive query ends with the start and its descendants in order |
| Tokens.RefreshTokens.RevokeChain | apps/api/api/security/tokens.py:92-112 | revokes exactly the live tokens of that list |
| Tokens.RefreshTokens.Rotate | apps/api/api/security/tokens.py:115-184 | succeeds if and only if a row with the hash is live and unexpired and the new hash is free, handing the old token over to one new one; otherwise the table and the answer of each arm: absent, unknown, reused, expired |
| Tokens.RotationIff | apps/api/api/security/tokens.py:115-184 | a rotation succeeds exactly when it may, and each refusal names the first thing that is wrong |
| Tokens.RotationHandsOver | apps/api/api/security/tokens.py:164-184 | the old row is revoked now and linked to one new live row of its owner with the new hash and expiry; nothing else changes |
| Tokens.CommittedIff | apps/api/api/db.py:76-93 | a rotation that may succeed is committed with what it handed over, and a refusal commits nothing |
| Tokens.RefreshTokens.RevokeOne | apps/api/api/security/tokens.py:187-203 | true exactly when a live token was revoked; no other row changes |
| Tokens.RevokeOneRow | apps/api/api/security/tokens.py:187-203 | the same of the operation in a run of calls |
| Tokens.ChainIsReachability | apps/api/api/security/tokens.py:92-105 | the walk collects exactly the tokens that `replaced_by` leads to |
| Tokens.RevokedChangesOnlyLiveDescendants | apps/api/api/security/tokens.py:92-112 | revocation changes a row if and only if it is a live descendant, and only its time, to now |
| Tokens.RevokedChainIsDead | apps/api/api/security/tokens.py:153-158 | started on any member, it leaves no live token in the whole chain |
| Tokens.ChainsAreAcyclicAndOwned | apps/api/api/security/tokens.py:115-184 | chains have no cycle and one tenant and user |
| Tokens.ChainsAreDisjoint | apps/api/api/security/tokens.py:115-184 | being of one chain is transitive: chains neither fork nor meet |
| Tokens.OneLivePerChain | apps/api/api/security/tokens.py:164-184 | a live token is the tail of its chain and the only live one in it |
| Tokens.EveryRunKeepsChains | apps/api/api/security/tokens.py:55-203 | all of this in every table any sequence of issues, rotations and revocations produces |
| Tokens.ReuseIsRolledBack | apps/api/api/db.py:76-93 | after a reuse the session sees the chain dead, but the committed chain keeps a live token if and only if its tail was live |
| NsuTracker.PutAllIsMaximum | packages/worker-core/worker_core/nsu_tracker.py:149-181 | after any calls the value of a key is the maximum of its start and its own values |
| NsuTracker.OrderDoesNotMatter | packages/worker-core/worker_core/nsu_tracker.py:149-181 | two orders, and any other keys' calls, give the same value |
| NsuTracker.InMemoryNsuSource.Set | packages/worker-core/worker_core/nsu_tracker.py:262-278 | the in-memory store is that register |
| NsuTracker.DbNsuSource.Obter | packages/worker-core/worker_core/db_nsu.py:63-100 | the stored cursor, or 0 for a missing company, another CNPJ or an unset cursor |
| NsuTracker.DbNsuSource.Set | packages/worker-core/worker_core/db_nsu.py:102-126 | raises on a negative value, otherwise moves the row only forward |
| NsuTracker.DbIsTheSameRegister | packages/worker-core/worker_core/db_nsu.py:102-126 | for every interleaving of statements a company's cursor is the register of the calls that reached it |
| NsuTracker.DbMismatchReadsZero | packages/worker-core/worker_core/db_nsu.py:86-99 | with another CNPJ it reads 0 whatever is set |
| NsuTracker.FileSystem.SalvarEstado | packages/worker-core/worker_core/nsu_tracker.py:91-130 | the disk after a save that stops at any system call, with or without a failing clean-up |
| NsuTracker.FileSystem.CarregarEstado | packages/worker-core/worker_core/nsu_tracker.py:29-88 | returns what the file holds, an empty state for a missing or corrupt one, nothing when reading raises, and leaves a present file in place |
| NsuTracker.FileNsuSource.Abrir | packages/worker-core/worker_core/nsu_tracker.py:296-298 | the store opens with what the file holds, and does not open exactly when reading a present file raises |
| NsuTracker.FileNsuSource.Set | packages/worker-core/worker_core/nsu_tracker.py:307-311 | memory moves first; the file is saved only when the value rose, and raises exactly when that save did |
| NsuTracker.MainUntilReplaced | packages/worker-core/worker_core/nsu_tracker.py:109-120 | the file is the old one until the rename and the whole new one after it |
| NsuTracker.SaveIsAtomic | packages/worker-core/worker_core/nsu_tracker.py:91-130 | however a save ends, by a return, an exception, a kill or a power cut, a reader recovers the state it was saving if the save got past its last call, and the state before it otherwise |
| NsuTracker.WithoutFsyncPowerLossLosesAll | packages/worker-core/worker_core/nsu_tracker.py:109-120 | the same calls without the sync leave, after a power loss, neither state but an empty one |
| NsuTracker.RecoveredNeverRegresses | packages/worker-core/worker_core/nsu_tracker.py:285-311 | over any sets, failures, kills, power cuts and restarts the recovered map never regresses and stays at most the memory |
| NsuTracker.FileIsBehindIffLastSaveRaised | packages/worker-core/worker_core/nsu_tracker.py:307-311 | memory and file differ if and only if the last save of the living process raised |
| NsuTracker.RestartReads | packages/worker-core/worker_core/nsu_tracker.py:296-298 | a process that starts reads what the disk holds; a kill or a power cut forgets the memory and no synced file |
| NsuTracker.ReturnedSetIsOnDiskIff | packages/worker-core/worker_core/nsu_tracker.py:307-311 | a set that returns is on the disk if and only if its value was new to the memory or the disk held as much |
| NsuTracker.ReturnedSetIsDurable | packages/worker-core/worker_core/nsu_tracker.py:307-311 | what such a set put on the disk stays there over any later events |
| NsuTracker.RepeatedSetMayNotSave | packages/worker-core/worker_core/nsu_tracker.py:307-311 | a set that raised, repeated, returns without a save, and a power cut loses it |
| Help.HelpMetrics.RecordHelpEvent | apps/api/api/help/routes.py:37-69 | the counters are those of one more recorded event, empty texts standing for absent dimensions |
| Help.HelpMetrics.GetHelpInsights | apps/api/api/help/routes.py:97-159 | refuses any window but 7, 30 and 90 days; otherwise totals and rows agree with each other and with the recorded events |
| Help.UpsertKeepsKeys | apps/api/api/help/routes.py:46-57 | the upsert keeps the key unique and adds no other row |
| Help.RecordedKeysAreUnique | apps/api/alembic/versions/0020_help_metrics_daily.py:66-75 | over every run the table has one row per key, for exactly the keys recorded |
| Help.SumIsOccurrences | apps/api/api/help/routes.py:46-57 | the counters that match a query add up to the recorded events that match it |
| Help.OccurrencesCountPositions | apps/api/api/help/routes.py:113-135 | the events that match a query are those of its tenant, type and dimension from its first day on, each counted once |
| Help.Counts | apps/api/api/help/routes.py:85-89 | every event type, with the total assigned to it last |
| Help.LastTotalOfKind | apps/api/api/help/routes.py:85-89 | assigning is as good as adding because an answer has one row per group |
| Help.RegroupByDimension | apps/api/api/help/routes.py:138-141 | each article and route once, with its rows of the answer in order |
| Help.SplittingKeepsTheSum | apps/api/api/help/routes.py:124-150 | splitting by article and route and adding up again loses and repeats nothing |
| Help.InsightsAgree | apps/api/api/help/routes.py:113-159 | for each event type the sum over insight rows is the total, and both count the events recorded in the window |
| Cnpj.CheckDigit | apps/api/api/companies/cnpj.py:34-37 | is always one decimal digit |
| Cnpj.OnePairPerBase | apps/api/api/companies/cnpj.py:34-61 | every base of twelve digits has exactly one pair of digits that passes |
| Cnpj.RepeatedPassesIffZeros | apps/api/api/companies/cnpj.py:40-61 | of the texts that repeat one digit the check digits let through exactly fourteen zeros, which the extra test refuses |
| Cnpj.ValidIff | apps/api/api/companies/cnpj.py:40-61 | valid is fourteen digits, not all zero, whose check digits show the two remainders |
| Cnpj.OneChangedDigit | apps/api/api/companies/cnpj.py:40-61 | changing one digit of a valid CNPJ stays valid if and only if both check digits are 0, the position is the first, fifth or ninth, and the remainders trade places |
| Cnpj.OneSwappedPair | apps/api/api/companies/cnpj.py:40-61 | swapping two different neighbours of the base stays valid if and only if both check digits are 0 and the swap is one of the two that keep the remainders below 2 |
| Cnpj.MissedChangesExist | apps/api/api/companies/cnpj.py:40-61 | one valid CNPJ that stays valid under a change at each of the three positions |
| Cnpj.MissedSwapExists | apps/api/api/companies/cnpj.py:40-61 | one valid CNPJ that stays valid under a swap |
| Batches.BatchIsASegment | packages/worker-core/worker_core/batch_processor.py:515-525 | the slice of a batch is the segment between two multiples of the size, cut at the end |
| Batches.BatchesPartition | packages/worker-core/worker_core/batch_processor.py:515-525 | the batches 1..T put together are the list, for every list and T |
| Batches.ExactlyOneOwner | packages/worker-core/worker_core/batch_processor.py:515-525 | every client is in exactly one batch, and that batch exists |
| Batches.EmptyBatches | packages/worker-core/worker_core/batch_processor.py:515-525 | a batch is empty if and only if it starts past the end |
| Batches.NoBatchIsEverything | packages/worker-core/worker_core/batch_processor.py:515-525 | without a batch number or a number of batches, or with a zero, everything is one batch |
| Batches.BatchPastTheLast | packages/worker-core/worker_core/batch_processor.py:515-525 | a batch number past the last one selects nobody |
| Batches.ProcessarTodosClientes | packages/worker-core/worker_core/batch_processor.py:515-558 | one result per client of the batch, in order, threading the NSU state |
| Batches.ResultsInOrder | packages/worker-core/worker_core/batch_processor.py:526-558 | each result is that of the step on the state the earlier clients left |
| Batches.BatchedRunIsOneRun | packages/worker-core/worker_core/batch_processor.py:515-558 | running the batches one after the other leaves the state and the results of one run over all clients |

## Left out

- Libraries: cron and time zones (a next-run function; `Forward` says it lies after its base), retries and back-off, mTLS, object storage calls, cryptography, password hashing, JWT, XML and regex parsing (what they find in a document is part of the document).
- PostgreSQL itself: row-level security, planner, hash collisions of `hashtext` (distinct companies have distinct lock keys here), savepoints, column types and bounds.
- Fetcher.PaginateCollects: assumes strictly increasing positive integer NSUs and truthful replies; for logs whose coerced NSUs grow `MixedNsus` says what holds instead; documents in another order are left to the contracts of `BuscarTodosDfeNovos` and `MaxNsuDoLote`. An NSU whose coercion raises something other than the errors the loop catches is not modelled.
- Coverage.CursorNeverPassesUnaccountedNote: starts from an unset cursor, takes the whole pagination of a run as one step against the log of that moment, and takes the entries of the portal's log, integer or text, to have positive and strictly growing coerced NSUs; `resetar_cnpj`, which lowers an NSU on purpose, is not an event.
- Coverage.RowsNameStoredObjects: an object is its key; nothing in the model deletes one, and its content is not modelled.
- Coverage.NextKeeps: the status and counters of an execution row are in `Collection` only.
- SchedulerTurns.CrashedExecutionIsStuck: a job returned to the queue by hand, or a status set by hand as the runbook describes, is no event.
- SchedulerLocks.TickMutualExclusion: a statement is atomic and sees what is committed when it starts; the API call is one step; a raising enqueue enqueued nothing; each job is picked at most once; `now()` and the period of a row play no part. A schedule is updated once per transaction, after its companies.
- SchedulerLocks.SomeTransactionRuns: says nobody waits in a circle, not that a queued execution is eventually run; `SchedulerTurns` says what a tick and a worker do when nothing disturbs them. A job whose row is not visible when picked is dropped and its row stays queued.
- Tick.Scheduler.RunTick: one tick by itself that reaches its end; an error of the database in the middle of a tick aborts it and is not modelled. The table of companies does not change during a tick.
- Executions.OneOpenExecutionPerKey: requests are serialised; two concurrent requests for one key are not excluded by the code and not modelled. The answers of the queries that resolve items and NSUs are parameters; the dry-run flag, the scope column and the derived status of a reprocess, and the actor and address of its audit entry, are not modelled, and the order of the companies an error names is left open.
- Schedules.SerialisedRunsStayFresh: edits and ticks are whole steps there; the two interleavings of their halves are stated by `TickFreshIff`, `EnabledAlwaysHasNextRun` and `DisablingDuringATickLeavesANextRun`. Reading and listing schedules is not modelled.
- Tokens.EveryRunKeepsChains: each call is atomic; two rotations of one token at once are not excluded by the code and not modelled. Ids and hashes are drawn at random in the source and stand for themselves here; device and address columns are dropped.
- NsuTracker.FileSystem.SalvarEstado: a rename is taken to survive a power loss once it returned, and data that was synced to be readable afterwards; the directory entry is not synced in the source. One process owns the file.
- Help.HelpMetrics.GetHelpInsights: the order of the rows of an answer is left open, so it covers the ORDER BY of the source; payload validation and roles are not modelled.
- Cnpj.OneChangedDigit: digits are '0' to '9'; Python's `isdigit` also accepts other digits, on some of which `int` raises. `normalize_cnpj` is not modelled.
- Batches.ProcessarTodosClientes: batch numbers are natural numbers, as `main.py` enforces; the quotient is exact, while the source divides floats, which agrees below 2^53. What happens to one client is a parameter, so the month filter and the spreadsheets are not modelled.
- Exports: `build_export` calls a `_mark_failed` that a later definition in the same module replaces, so nothing is stated about its failure arm.
- Role-based access, request schemas, migrations beyond the constraints cited, logging, health checks, uploaders to local disk and Google Drive, spreadsheets, the command line and the web application: little state, or none that the code above depends on.
