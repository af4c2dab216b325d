# A verified model of the data-pipeline back end and its editor

The repository is a data-cleaning application: users upload tables, edit a pipeline of steps in the
browser, and run it in the background, exactly once per request if the design holds. This project
models its hardest parts in Dafny and proves what they promise together:

* **Exactly-once execution.** `ExecutionTask` is the worker side as a state machine: deliveries of
  the Celery task interleave with crashes, exceptions, retries and the sweeper, with the claim and
  the final write in one database transaction and an upload that survives its rollback.
  `ExecuteRequests` is the request side: concurrent calls of the `execute` route with three commit
  points over the table of idempotency keys, the clock and the purge of expired keys.
  `ExecutionTaskProofs`, `ExecuteRequestsProofs`, `ExecuteRequestsReplay` (what a client's key
  stores), `ExecuteRequestsDedup` (the deduplication layer) and `ExecuteRequestsLimits` (where both
  end) hold the results about every run; `ExactlyOnce` composes the two sides.
  `ExecutionWorker` and `ExecuteRoute` are the code itself as classes whose methods update the
  tables in place: the methods equal a specification, and the specification is a path of the state
  machine.
* **The pipeline and its table algebra.** `Executor` is the fold with fall-back to the last good
  table and its report. `RowOrder`, `RowFilters`, `GroupBy` and `ColumnScaling` are the transforms
  over tables with real numbers and missing values; `PipelineRewrites` says what their laws mean for
  whole pipelines; `Validator` is the gatekeeper in front of them.
* **The editor.** `PipelineStore` is the undo/redo store with its bounded history, against a zipper
  over a timeline and against an editor of unlimited history.
* **Security records.** `AuditChain`, `AuditTamper` and `GlobalSequence` are the audit log's hash
  chain, what an accepted chain proves, and the gap check; `RefreshTokens` is token rotation;
  `DeadLetter` is the replay queue.
* **The anomaly scan.** `ZScores` and `Anomalies`.

`Options`, `Results`, `Keys`, `Tables`, `Sequences` and `Paths` hold what the others share.

## What the proofs found

Where the code and its documentation or its intent part, the model follows the code.

* The worker tests for the status `completed`, which no execution ever gets; what keeps an execution
  from running twice is the conditional claim alone (`ExecutionTaskProofs.ClaimCommitsAtMostOnce`).
  Claim and final write share a transaction, so no committed row is ever `running` and the
  stale-execution sweeper never finds one (`ExecutionTaskProofs.LockedExactlyWhenRunning`). A row
  marked `failed` is never `pending` again, so a Celery retry of a failed task does nothing
  (`ExecutionTaskProofs.NeverBackToPending`, `ExecutionTaskProofs.LateDeliveryIsNoOp`).
* A redelivery that raises before it looks at its row turns a successful execution into a failed
  one; the output stays (`ExecutionWorker.RedeliveryCanFailASuccess`,
  `ExecutionTaskProofs.OnlyALateFailureUndoesSuccess`).
* The mark of `fail_idempotency_key` is always rolled back with the request that failed: a request
  that dies after its first commit leaves its key `processing`, and every further request with that
  key is refused until it expires (`ExecuteRoute.FailureMarkIsLost`).
* Client keys and deduplication keys share one namespace. A stored answer is replayed faithfully,
  whatever everybody else sends, if and only if the client's key is not a deduplication key of the
  same user (`ExecuteRequestsLimits.ReplayIsFaithfulExactlyWhenApart`). And a request that borrows
  the deduplication key of another operation makes later requests for that operation be told that
  a foreign execution is theirs (`ExecuteRequestsLimits.BorrowedKeyMisleads`).
* The step hash is cut to 16 digits. Two operations whose hashes collide share a deduplication
  record, so that one is answered with the execution of the other, under two keys and even under
  one, sent again after it has expired (`ExecuteRequestsLimits.CollidingStepsMislead`). This and
  the borrowed key are the only ways to be misled
  (`ExecuteRequestsLimits.DuplicatesMisleadExactlyWhenShared`).
* Deduplication stops a request only once another one has completed the record
  (`ExecuteRequestsDedup.DuplicateExactlyWhenCompleted`). Under two keys one operation is therefore
  executed twice without any time passing by requests that overlap, and also by requests that do
  not: one that dies after its first commit leaves its execution and a record that stops nobody
  (`ExecuteRequestsLimits.RunsTwiceExactlyUnderTwoKeys`).
* A failure after the third commit sends the client an error although the answer is stored; its
  retry is answered with the execution that was created (`ExecuteRoute.UnheardAnswerIsReplayed`).
* `drop_nulls` and `remove_duplicates` fall back to all columns when none of the requested ones
  exists, so asking for several columns is not always the same as asking for one after another;
  `RowFilters.DropNullsChains` says exactly when it is.
* Moving a pipeline step from a position beyond the end inserts an undefined step
  (`PipelineStore.MoveKeepsStepsExactlyWhenInRange`).
* The revocation after a detected token reuse happens in a session that the raised error rolls back,
  so it does not last (`RefreshTokens.ReuseKillsExactlyWhenKept`,
  `RefreshTokens.RolledBackReuseSpares`). An expired token is refused before the reuse check, so
  reusing it would revoke nothing even if it were kept (`RefreshTokens.ExpiredReuseIsSilent`).
* Verifying the audit chain without a user does not check the system's own events but runs through
  everybody's entries as one chain (`AuditChain.MixedLogAccepted`). Switching the chain off and on
  again makes the verifier reject an honest log (`AuditChain.HonestAccepted`).
* A rolled-back transaction consumes its global sequence number, so the gap check flags honest logs
  (`GlobalSequence.RollbacksLookLikeDeletions`). It reads only the first 10000 numbers by default,
  and a deletion behind those it reads passes (`GlobalSequence.DeletionUnnoticedBeyondLimit`).
  The chain's verifier has such a window too, by default of 1000 entries
  (`AuditTamper.DeletionNoticed`, `AuditTamper.AlterationNoticed`, `AuditTamper.InsertionNoticed`).
* The `prev_hash` of a user's first entry is GENESIS, which has 72 characters
  (backend/app/services/security/audit.py:46), but the column is `String(64)`
  (backend/app/models.py:160, backend/alembic/versions/003_v7_additions.py:41): a database that
  enforces lengths refuses that entry.
* A dead-letter replay whose final commit fails has dispatched its task without counting it
  (`DeadLetter.FailedCommitsAreUnbounded`).

## Model

| member | source | states |
|---|---|---|
| Keys.OutputKeyInjective | backend/app/services/security/idempotency.py:58-63 | no two executions share an output object, whoever owns them |
| Keys.DedupKeyInjective | backend/app/services/security/idempotency.py:195-196 | the deduplication key determines user, pipeline, dataset and step hash |
| Keys.OutputKeyText | backend/app/services/security/idempotency.py:63 | the text of an output key |
| Keys.DedupKeyText | backend/app/services/security/idempotency.py:196 | the text of a deduplication key |
| ExecutionTaskProofs.OutputsAreFaithful | backend/app/services/tasks.py:157-181 | in every reachable state of any interleaving, a row with an output key has an object at exactly that key whose content and report are those of running its own steps on its raw dataset |
| ExecutionTaskProofs.ReportDecidesOutput | backend/app/services/tasks.py:157-181 | in every reachable state, a row with a report has that of its own steps on its owner's dataset; it has an output key, and the bucket the output under it, if and only if the run succeeded at least in part and left a row; its status is the report's, or failed after a late failure |
| ExecutionTaskProofs.CommitWritesTheReport | backend/app/services/tasks.py:169-181 | a commit gives the row the status of its report, for each of the three |
| ExecutionTaskProofs.OneObjectPerExecution | backend/app/services/tasks.py:161-167 | every object of the bucket is at the one key of exactly one dispatched execution and is its output, however often it reran |
| ExecutionTaskProofs.SecondUploadChangesNothing | backend/app/services/tasks.py:161-167 | in any run, uploading the output of an execution again leaves the whole bucket as it was |
| ExecutionTaskProofs.UploadKeepsOutputs | backend/app/services/tasks.py:161-167 | an upload leaves the stored output of every other execution alone |
| ExecutionTaskProofs.NeverBackToPending | backend/app/services/tasks.py:126-139 | over any run no execution disappears or returns to pending |
| ExecutionTaskProofs.ClaimCommitsAtMostOnce | backend/app/services/tasks.py:132-139 | over any run the conditional claim commits at most once per execution, exactly for those that carry a report |
| ExecutionTaskProofs.CommitsAreUnique | backend/app/services/tasks.py:169-181 | no two steps of a run commit the same execution |
| ExecutionTaskProofs.LockedExactlyWhenRunning | backend/app/services/tasks.py:132-139 | a lock holder is recorded exactly when the status is running, in the committed tables and in every open transaction; committed rows are never running, so the sweeper changes nothing |
| ExecutionTaskProofs.SweepIsNoOp | backend/app/services/tasks.py:212-233 | the sweeper finds nothing in any state that satisfies the invariant |
| ExecutionTaskProofs.LateDeliveryIsNoOp | backend/app/services/tasks.py:126-139 | a delivery that starts when its row is not pending and does not raise changes no row, job or object, whatever interleaves with it |
| ExecutionTaskProofs.OnlyALateFailureUndoesSuccess | backend/app/services/tasks.py:188-202 | a successful row changes exactly when a failure handler that saw it unfinished or successful commits, and then only its status does |
| ExecutionTaskProofs.StepKeepsInv | backend/app/services/tasks.py:112-233 | every step of every delivery, crash, handler and sweep keeps the invariant behind these results |
| ExecutionWorker.Backend.ExecutePipelineTask | backend/app/services/tasks.py:121-202 | the task code with an exception at any await point leaves exactly the rows, jobs, objects and result of TaskEffect |
| ExecutionWorker.Backend.RunAndUpload | backend/app/services/tasks.py:159-167 | the report, row count and key are those of the pipeline's own run, and the only object written is the output at its key |
| ExecutionWorker.Backend.Fail | backend/app/services/tasks.py:188-202 | the handler fails the row and the job unless they are in a final state, and unlocks the row |
| ExecutionWorker.Backend.RecoverStaleExecutions | backend/app/services/tasks.py:212-233 | exactly the stale rows become failed and unlocked, all others stay |
| ExecutionWorker.TaskIsAPath | backend/app/services/tasks.py:121-202 | every undisturbed delivery, interrupted or not, is a path of the state machine, so the results about runs are about this code |
| ExecutionWorker.SkippedExactlyWhen | backend/app/services/tasks.py:123-139 | each way to skip a delivery is taken exactly for its state of the row, and changes nothing |
| ExecutionWorker.PendingIsRun | backend/app/services/tasks.py:132-186 | a pending execution with its data in order is run on that data and leaves the outcome in row, job and bucket, field by field; after an exception only what was visible by then |
| ExecutionWorker.EarlyFailure | backend/app/services/tasks.py:188-202 | a delivery that raises before its steps have run fails the row and the job, unless final, and changes nothing else |
| ExecutionWorker.SweptExactlyWhen | backend/app/services/tasks.py:212-233 | the sweeper fails exactly the rows that are running and have been locked for more than ten minutes |
| ExecutionWorker.RedeliveryCanFailASuccess | backend/app/services/tasks.py:188-202 | a redelivery that raises first turns success into failed and keeps the output; one that does not raise is a no-op |
| ExecuteRequestsProofs.GrantsNeverOverlap | backend/app/services/security/idempotency.py:119-148 | over any run of concurrent requests, rolled back at any commit point, the committed "proceed" grants of one user and key never overlap in time |
| ExecuteRequestsProofs.OneProceedAtATime | backend/app/services/security/idempotency.py:119-148 | at most one request per user and key is between its "proceed" and its end |
| ExecuteRequestsProofs.OneExecutionPerKey | backend/app/routers/pipelines.py:149-160 | over any run at most one execution row is ever committed per Idempotency-Key, and it belongs to a granted request with that key and operation |
| ExecuteRequestsProofs.ExecutionsStay | backend/app/routers/pipelines.py:149-178 | a committed execution is never changed or lost by the request side |
| ExecuteRequestsProofs.StepKeepsInv | backend/app/routers/pipelines.py:124-190 | every step of every request, abort, clock tick and purge keeps the invariant behind these results |
| ExecuteRequestsReplay.StoredAnswerIsReplayed | backend/app/services/security/idempotency.py:134-160 | in every run, whatever the other clients send: an answer stored for a key that is no deduplication key of its user is the one its own request computed, and every request with that key before expiry is answered by it: the same body replays exactly it, another body is refused |
| ExecuteRequestsDedup.DuplicateExactlyWhenCompleted | backend/app/services/security/idempotency.py:211-227 | in every run, a request is answered "duplicate" if and only if some request completed the record of its operation before and that record has not expired; otherwise it proceeds |
| ExecuteRequestsDedup.CompletedByTheOperation | backend/app/services/security/idempotency.py:230-243 | a record that no client uses as its own key is completed only by a request that has executed that operation, at its third commit |
| ExecuteRequestsDedup.SameSlotSameOp | backend/app/services/security/idempotency.py:195-196 | two operations share a deduplication record if and only if they agree in user, pipeline, dataset and, when they are part of the key, steps, or their step hashes collide |
| ExecuteRequestsDedup.DuplicateNamesTheSameOperation | backend/app/services/security/idempotency.py:211-217 | an execution named by a "duplicate" answer was created for the same user, pipeline, dataset and, when they are part of the key, steps, unless the hashes of these two step lists collide or a client uses the operation's deduplication key as its own |
| ExecuteRequestsDedup.ExecutedOnlyWhenNotCompleted | backend/app/services/security/idempotency.py:183-243 | every execution goes back to a request that asked while no request had completed its operation's record, or after that record had expired |
| ExecuteRequestsDedup.NoSecondExecutionInTheWindow | backend/app/services/security/idempotency.py:183-243 | when nobody uses the operation's deduplication key as its own, a request creates no second execution if an earlier request for the operation finished and its record lives, and is let through if none did, be it that the earlier one is at work or that it died |
| ExecuteRequestsDedup.DuplicateCreatesNothing | backend/app/routers/pipelines.py:135-144 | a request on its way to a duplicate answer never creates an execution, and ends with that answer or aborted |
| ExecuteRequestsReplay.FailedKeyStaysBusy | backend/app/routers/pipelines.py:187-189 | a live record of a key that is no deduplication key answers with what its creator computed if that is stored, and otherwise "in progress", never with an empty answer |
| ExecuteRequestsLimits.ReplayIsFaithfulExactlyWhenApart | backend/app/services/security/idempotency.py:195-225 | over all runs of all clients, the answer stored for a key is always the one its request computed if and only if the key is not one of that user's deduplication keys |
| ExecuteRequestsLimits.CollidingKeyStoresAMarker | backend/app/services/security/idempotency.py:230-243 | a request whose key is its own deduplication key finishes, but what is stored is the marker |
| ExecuteRequestsLimits.OwnKeyNoDuplicate | backend/app/services/security/idempotency.py:211-217 | a request whose key is its own deduplication key is never answered "duplicate" |
| ExecuteRequestsLimits.BorrowedKeyMisleads | backend/app/services/security/idempotency.py:195-225 | after a request for another operation under this operation's deduplication key, a request for this one under a third key is told that execution is its own |
| ExecuteRequestsLimits.CollidingStepsMislead | backend/app/services/security/idempotency.py:49-55 | when the step hashes of two operations collide, a request for one is told the execution of the other is its own, with no borrowed key, under different keys or the same one |
| ExecuteRequestsLimits.DuplicatesMisleadExactlyWhenShared | backend/app/services/security/idempotency.py:195-225 | whatever the other users send, a duplicate can name an execution of another operation (other user, pipeline, dataset or, when they are part of the key, steps) if and only if clients of that user may use a key other than the deduplication key, and either that key too or two operations with that key have colliding step hashes |
| ExecuteRequestsLimits.RunsTwiceExactlyUnderTwoKeys | backend/app/services/security/idempotency.py:211-227 | an operation sent by two requests can be executed twice without any time passing if and only if their keys differ, with overlapping requests that are not interrupted as well as with requests one after the other of which the first dies; under one key it never is, however much time passes |
| ExecuteRoute.Session.GetOrCreateIdempotencyKey | backend/app/services/security/idempotency.py:119-148 | conflict, busy, replay or proceed exactly by the live record, and only proceed inserts |
| ExecuteRoute.Session.CompleteIdempotencyKey | backend/app/services/security/idempotency.py:151-160 | the record, if there, becomes complete with the body; nothing else changes |
| ExecuteRoute.Session.FailIdempotencyKey | backend/app/services/security/idempotency.py:163-169 | the record, if there, stops processing; nothing else changes |
| ExecuteRoute.Session.CleanupExpiredKeys | backend/app/services/security/idempotency.py:172-178 | exactly the expired records go, and their number is returned |
| ExecuteRoute.Session.ClaimExecutionDedup | backend/app/services/security/idempotency.py:183-227 | duplicate exactly for a live completed record; otherwise proceed, inserting a record only when none is live |
| ExecuteRoute.Session.Execute | backend/app/routers/pipelines.py:99-190 | the route with an exception at any point leaves exactly the tables and the reply of RouteEffect |
| ExecuteRoute.Session.ExecuteGranted | backend/app/routers/pipelines.py:132-189 | the same from the granted key on |
| ExecuteRoute.Session.CreateExecution | backend/app/routers/pipelines.py:146-178 | the same from the insert of the execution on, with its three commit points |
| ExecuteRoute.Session.Except | backend/app/routers/pipelines.py:187-189 | after an exception the tables are those of the last commit |
| ExecuteRoute.Session.Rollback | backend/app/db/routing.py:16-18 | a rollback forgets everything since the last commit |
| ExecuteRoute.RouteIsAPath | backend/app/routers/pipelines.py:99-190 | every undisturbed request, interrupted or not, is a path of the state machine |
| ExecuteRoute.AnsweredExactlyWhen | backend/app/routers/pipelines.py:124-190 | each answer of an uninterrupted request, if and only if the tables are as it says: created, duplicate, replayed, busy, conflict or failed |
| ExecuteRoute.CreationLeaves | backend/app/routers/pipelines.py:146-180 | a request that creates an execution leaves its row, and its key and its operation completed with the answer and the execution if it gets past the third commit, processing if it dies before |
| ExecuteRoute.DuplicateLeaves | backend/app/routers/pipelines.py:135-144 | a duplicate leaves only its own key, completed with the answer that names the earlier execution |
| ExecuteRoute.OthersLeaveNothing | backend/app/routers/pipelines.py:187-189 | any other request, and one that dies before its first commit, leaves both tables alone |
| ExecuteRoute.FailureMarkIsLost | backend/app/routers/pipelines.py:187-189 | a request that gets past its first commit and dies, whether its operation has no deduplication record or one at work, leaves its key processing until it expires |
| ExecuteRoute.SuccessIsReplayed | backend/app/services/security/idempotency.py:134-142 | a successful request sent again under its key returns the same answer and changes nothing |
| ExecuteRoute.UnheardAnswerIsReplayed | backend/app/routers/pipelines.py:180-189 | a client that got an error after the third commit gets, on its retry, the answer with the execution that was created, and nothing changes |
| ExactlyOnce.ExactlyOncePerKey | backend/app/routers/pipelines.py:146-178 | over every run of requests and workers together: one execution per Idempotency-Key, claimed at most once, with at most one object that holds what its operation computes |
| ExactlyOnce.EveryObjectHasARequest | backend/app/services/tasks.py:161-167 | every object of the bucket goes back to a granted request with that key and operation |
| ExactlyOnce.SharedStepsAreNeverBlocked | backend/app/routers/pipelines.py:160-168 | composing the two sides never blocks a request's commit or dispatch |
| Executor.ExecutePipeline | backend/app/services/executor.py:28-175 | the loop with its last good table computes the fold of the steps and its report |
| Executor.StepByStep | backend/app/services/executor.py:72-127 | every run goes through one table per step: a known step that does not raise turns the table before it into what its action makes of it with its own parameters, any other leaves it alone, and the log says so |
| Executor.OneStep | backend/app/services/executor.py:72-168 | the whole report and output of a pipeline of one step, for each of its three fates |
| Executor.NoStep | backend/app/services/executor.py:50-66 | a frame that cannot be converted comes back with every step counted as failed; an empty pipeline succeeds |
| Executor.ExecuteSplits | backend/app/services/executor.py:72-127 | executing s1 + s2 is executing s2 on the output of s1, with the logs concatenated and re-indexed and the counts added |
| Executor.ErasingFailedSteps | backend/app/services/executor.py:72-127 | running only the steps logged ok succeeds throughout and gives the same table |
| Executor.ReportAddsUp | backend/app/services/executor.py:142-168 | one log entry per step, each starts where the last ended, input count plus deltas is output count, ok plus failed is total, and the counts decide the status exactly |
| Executor.AllFailedReturnsInput | backend/app/services/executor.py:101-127 | a pipeline in which every step fails hands back its input |
| RowOrder.SortRowsSorts | backend/app/services/transforms.py:215-220 | the sort's result is sorted, nulls first in both directions, and has exactly the input's rows |
| RowOrder.SortRowsStable | backend/app/services/transforms.py:220 | rows with equal keys keep their order |
| RowOrder.StableSortIsUnique | backend/app/services/transforms.py:220 | sortedness and stability leave no choice of the result |
| RowOrder.SortTwice | backend/app/services/transforms.py:220 | sorting rows by b and then by a is one sort by a + b |
| RowOrder.TextOrder | backend/app/services/transforms.py:220 | text is ordered by its first difference, a beginning first |
| RowFilters.FilterRowsTransform | backend/app/services/transforms.py:169-201 | the loop that builds the combined expression, in three-valued logic, keeps exactly the rows whose every tested column passes |
| RowFilters.FiltersRowByRow | backend/app/services/transforms.py:169-201 | each row by itself stays if and only if every requested numeric column has a number that meets the threshold by the method, gte and 0 by default; order and schema stay |
| RowFilters.DropsRowByRow | backend/app/services/transforms.py:46-58 | `drop_nulls` keeps a row if and only if it has no null in the requested columns that exist, or in any column if none does |
| RowFilters.FirstOfEachKindStays | backend/app/services/transforms.py:256-258 | `remove_duplicates` keeps a row if and only if no row before it agrees with it in those columns |
| RowFilters.SortsByTheFirst | backend/app/services/transforms.py:215-220 | nulls first, then ascending, or descending for "desc", by the first requested column that exists |
| RowFilters.SortsNothing | backend/app/services/transforms.py:215-219 | without such a column the table stays as it is |
| Tables.RequestedOrAll | backend/app/services/transforms.py:34-53 | which columns a transform works on: the requested ones it can, or all it can if none is requested |
| Tables.ListedInOrder | backend/app/services/transforms.py:40-53 | requested columns are taken one by one, in their order |
| RowFilters.SortByTwo | backend/app/services/transforms.py:215-220 | on tables, with missing columns and any order parameter, sorting by b and then by a is one sort by a and b |
| RowFilters.RowFiltersCommute | backend/app/services/transforms.py:169-201 | `filter_rows` and `drop_nulls` steps commute in every combination |
| RowFilters.FilterPassesSort | backend/app/services/transforms.py:215-220 | a row filter can be moved before or after a sort |
| RowFilters.FilterChains | backend/app/services/transforms.py:188-201 | `filter_rows` on several columns is the chain of its single-column filters |
| RowFilters.DropNullsChains | backend/app/services/transforms.py:46-58 | the same for `drop_nulls`, for every content of the table, if and only if no requested column is missing, or all are, or they cover the table |
| RowFilters.DuplicatesGone | backend/app/services/transforms.py:256-258 | no two rows left agree on the subset, and every input row agrees with one left |
| RowFilters.DuplicatesPassSort | backend/app/services/transforms.py:256-258 | sorting and removing duplicates by the same columns can be swapped |
| PipelineRewrites.ReorderedPipelinesAgree | backend/app/services/executor.py:72-127 | pipelines of filters and sorts with the same filters anywhere in any order and the same sorts in the same order give the same output and succeed |
| PipelineRewrites.FiltersGoFirst | backend/app/services/transforms.py:169-220 | such a pipeline equals the one with its filters in front |
| PipelineRewrites.FiltersPermute | backend/app/services/transforms.py:169-201 | pipelines of the same filters in any order agree |
| GroupBy.KeysAreTheInputs | backend/app/services/transforms.py:249-253 | the output keys are strictly ascending and exactly the input's, null included |
| GroupBy.GroupsAreAggregated | backend/app/services/transforms.py:225-253 | a group's row has, by the method, the sum, mean or count of each requested numeric column over exactly the rows of the group |
| GroupBy.TotalOneMore | backend/app/services/transforms.py:233-237 | sums and counts are taken row by row, nulls adding nothing |
| GroupBy.GroupedColumns | backend/app/services/transforms.py:223-253 | the names of the result's columns, when it raises, and when there is nothing to do |
| GroupBy.TotalsAreConserved | backend/app/services/transforms.py:233-237 | the sum column adds up to the input's non-null sum, the count column to its number of non-null values |
| GroupBy.MeansStayWithin | backend/app/services/transforms.py:233-237 | each mean lies within the bounds of its group's values and is null exactly for a group without values |
| GroupBy.OrderDoesNotMatter | backend/app/services/transforms.py:249-253 | the result depends neither on the order of the rows nor on the order in which groups are enumerated |
| ColumnScaling.NormalizeTransform | backend/app/services/transforms.py:113-130 | the loop building one expression per column rewrites the table as specified; a column listed twice raises |
| ColumnScaling.NormalizedColumn | backend/app/services/transforms.py:113-130 | exactly the numeric columns asked for are scaled, each by its own values; all others and the number of rows stay |
| ColumnScaling.NormalizesIntoUnit | backend/app/services/transforms.py:121-128 | in a normalized table, a column that had two values lies in [0, 1] and its nulls stay |
| ColumnScaling.NormalizesOntoEnds | backend/app/services/transforms.py:121-128 | some row reaches 0 in it and some row 1 |
| ColumnScaling.NormalizeKeepsOrder | backend/app/services/transforms.py:121-128 | any two rows are ordered by it as before, both ways |
| ColumnScaling.NormalizesLinearly | backend/app/services/transforms.py:121-128 | the new value is the distance from the least value, in units of the distance between least and greatest |
| ColumnScaling.NormalizesConstants | backend/app/services/transforms.py:124-127 | a column with one value becomes all 0, nulls included; one without values stays null |
| ColumnScaling.NormalizeTwice | backend/app/services/transforms.py:113-130 | normalizing a normalized table changes nothing |
| ColumnScaling.MeanFillKeepsMean | backend/app/services/transforms.py:67-71 | filling with the mean leaves the mean unchanged |
| ColumnScaling.FilledColumns | backend/app/services/transforms.py:61-79 | after filling, a column keeps its values and its mean, and has a null only if it was filled with the mean and had no value at all |
| ColumnScaling.FillsWith | backend/app/services/transforms.py:61-79 | a null of a requested numeric column becomes the column's mean, or 0 for any method but mean and median; nothing else changes |
| Validator.ValidateStep | backend/app/services/validator.py:32-126 | the checks, field by field, give the specified verdict, normalised step and warnings |
| Validator.RejectedForTheFirstFault | backend/app/services/validator.py:43-117 | a step is accepted if and only if it has none of thirteen faults, each said of the JSON value; a rejection names the first one and its type |
| Validator.AcceptedStepIs | backend/app/services/validator.py:47-126 | what an accepted step contains, field by field, and the warning it is given |
| Validator.StripKeeps | backend/app/services/validator.py:47-48 | stripping takes white space from both ends and nothing else |
| Validator.NamesOneMore | backend/app/services/validator.py:78 | column names are stripped one by one, blank ones left out |
| Validator.MissingOneMore | backend/app/services/validator.py:120 | the columns a warning lists are those the dataset lacks, in order |
| Validator.AcceptedIsNormal | backend/app/services/validator.py:69-126 | whatever the input, an accepted step is in normal form |
| Validator.ValidationIsIdempotent | backend/app/services/validator.py:32-126 | an accepted step, stored and validated again, is accepted unchanged with the same warnings |
| Validator.ValidateAiOutput | backend/app/services/validator.py:129-147 | the loop sorts the answer's steps into accepted, rejected and warnings, in order |
| Validator.NothingIsDropped | backend/app/services/validator.py:139-147 | every element becomes a step or a rejection, and the steps are exactly the accepted ones |
| Validator.SortedOneByOne | backend/app/services/validator.py:139-168 | steps, rejections, warnings and hard errors are collected element by element, in order |
| Validator.AiOutputIs | backend/app/services/validator.py:133-138 | an answer that is no object with a list of steps is rejected as a whole |
| Validator.ValidatePipelineSteps | backend/app/services/validator.py:150-168 | errors, warnings and the hard-error flag are those of the steps' verdicts |
| Validator.AiStepsCanBeExecuted | backend/app/services/validator.py:129-168 | steps accepted from an AI answer pass the check before execution without a hard error and unchanged, against any dataset |
| Validator.AcceptedStepsAreKnown | backend/app/services/validator.py:14-56 | a run of accepted steps never logs an unknown action |
| PipelineStore.Store.SetName | frontend/src/stores/pipeline.store.ts:43-50 | the new state is the specified edit of the old one |
| PipelineStore.Store.SetSteps | frontend/src/stores/pipeline.store.ts:52-59 | the new state is the specified edit of the old one |
| PipelineStore.Store.AddSteps | frontend/src/stores/pipeline.store.ts:61-68 | the new state is the specified edit of the old one |
| PipelineStore.Store.RemoveStep | frontend/src/stores/pipeline.store.ts:70-77 | the new state is the specified edit of the old one |
| PipelineStore.Store.MoveStep | frontend/src/stores/pipeline.store.ts:79-91 | the two splices, for any positions, are the specified move |
| PipelineStore.Store.Undo | frontend/src/stores/pipeline.store.ts:93-106 | the new state is the specified undo of the old one |
| PipelineStore.Store.Redo | frontend/src/stores/pipeline.store.ts:108-121 | the new state is the specified redo of the old one |
| PipelineStore.Store.Reset | frontend/src/stores/pipeline.store.ts:128-138 | back to the initial editor |
| PipelineStore.EditsAreExact | frontend/src/stores/pipeline.store.ts:43-138 | what each edit does to the name and to every step |
| PipelineStore.EditsAreRecorded | frontend/src/stores/pipeline.store.ts:43-91 | every edit puts the state before it in front of a history of fifty, and clears what could be redone |
| PipelineStore.MoveClamps | frontend/src/stores/pipeline.store.ts:79-91 | what positions outside the list mean to a move |
| PipelineStore.ReachableInBounds | frontend/src/stores/pipeline.store.ts:30-121 | past and future together never hold more than 50 entries, so undo and redo never truncate |
| PipelineStore.CursorMoves | frontend/src/stores/pipeline.store.ts:93-121 | undo and redo only move a cursor over an unchanged timeline |
| PipelineStore.TimelineDetermines | frontend/src/stores/pipeline.store.ts:93-121 | a state is determined by its timeline and its cursor |
| PipelineStore.ManyMoves | frontend/src/stores/pipeline.store.ts:93-121 | k undos or redos move the cursor by k, as far as the history goes |
| PipelineStore.UndoRedoInverse | frontend/src/stores/pipeline.store.ts:93-121 | k undos and then k redos restore the whole state, and the other way round |
| PipelineStore.UndoRevertsEdit | frontend/src/stores/pipeline.store.ts:43-121 | undoing an edit gives back exactly the name and steps before it, redoing it those after it |
| PipelineStore.CommandRefines | frontend/src/stores/pipeline.store.ts:43-138 | one command keeps the bounded and the unlimited editor in step if and only if it is not an undo the bounded history has lost |
| PipelineStore.RunRefines | frontend/src/stores/pipeline.store.ts:30-138 | name, steps and future are those of an unlimited editor, and past is a prefix of its past, throughout a run if and only if the run loses no undo |
| PipelineStore.UndosWithPastLoseNothing | frontend/src/stores/pipeline.store.ts:93-106 | a run in which no undo meets an empty past loses none |
| PipelineStore.MoveStepIsAPermutation | frontend/src/stores/pipeline.store.ts:79-91 | at valid positions the step ends at `to`, the others keep their order, nothing is lost, and moving back undoes it |
| PipelineStore.MoveKeepsStepsExactlyWhenInRange | frontend/src/stores/pipeline.store.ts:79-91 | a move keeps the steps if and only if it does not start beyond the end |
| AuditChain.AuditTrail.Audit | backend/app/services/security/audit.py:84-144 | the log grows by the specified entry, chained to its user's last entry |
| AuditChain.AuditTrail.VerifyAuditChain | backend/app/services/security/audit.py:147-178 | the loop's verdict, with the place and the reason of the first fault |
| AuditChain.AppendedExactly | backend/app/services/security/audit.py:108-140 | an append keeps the log and adds the request's fields, with the hash of its user's last entry or GENESIS, and its own |
| AuditChain.HashedText | backend/app/services/security/audit.py:58-65 | the text that is hashed, with an absent id and the id 0 written as nothing |
| AuditChain.BrokenAtTheFirstFault | backend/app/services/security/audit.py:161-178 | a verdict counts all entries, or names the position of the first faulty one and its fault |
| AuditChain.AcceptedIsLinked | backend/app/services/security/audit.py:161-178 | accepted means that every hashed entry is linked to the hashed one before it and carries its own hash |
| AuditChain.OwnChainAccepted | backend/app/services/security/audit.py:110-144 | every interleaving of users' appends leaves each user's log accepted, for every limit |
| AuditChain.HonestAccepted | backend/app/services/security/audit.py:113-128 | a user's own log is accepted if and only if no unhashed entry lies between hashed ones |
| AuditChain.MixedLogAccepted | backend/app/services/security/audit.py:153-156 | without a user an honest log is accepted if and only if all the entries looked at are one user's, for every limit |
| AuditChain.PrefixesAccepted | backend/app/services/security/audit.py:153-178 | accepting n entries implies accepting every shorter prefix |
| AuditTamper.ChainDataInjective | backend/app/services/security/audit.py:58-65 | the hashed text determines previous hash and fields as soon as one of two equal texts joins fields without the separator |
| AuditTamper.LastHashFixesHistory | backend/app/services/security/audit.py:161-178 | two accepted chains with the same last hash agree entry by entry on all hashed fields and hashes |
| AuditTamper.DeletionNoticed | backend/app/services/security/audit.py:153-178 | deleting any entry of the log goes unnoticed by a verification of any user and limit if and only if that verification does not read it, it has no hash, or no hashed entry follows it in the window |
| AuditTamper.AlterationNoticed | backend/app/services/security/audit.py:153-178 | altering an entry, its hashes included, goes unnoticed if and only if it lies behind the window, or a hashed entry follows it and no hashed field or hash differs, or none follows and the new entry is itself correctly chained |
| AuditTamper.KeptHashKeepsFields | backend/app/services/security/audit.py:171-177 | the last hashed entry cannot be altered in any hashed field as long as its hash is left alone |
| AuditTamper.InsertionNoticed | backend/app/services/security/audit.py:153-178 | a forged entry put anywhere into the log goes unnoticed if and only if it lies behind the window, has no hash, or is correctly chained with no hashed entry after it in the window |
| AuditTamper.ReassigningIsDeleting | backend/app/services/security/audit.py:154-155 | giving an entry to another user looks to its user's verification exactly like deleting it |
| AuditTamper.ReassigningIsInserting | backend/app/services/security/audit.py:154-155 | and to the new user's verification exactly like inserting it |
| GlobalSequence.ValidIsContiguous | backend/app/services/security/audit.py:192-202 | the check passes if and only if the checked numbers are contiguous |
| GlobalSequence.ReportIsExact | backend/app/services/security/audit.py:192-202 | the numbers read, the gaps found, and the first ten of them |
| GlobalSequence.MissingNumbersAreCovered | backend/app/services/security/audit.py:196 | every missing number between first and last lies in exactly one gap, a present one in none |
| GlobalSequence.RangeIsAccountedFor | backend/app/services/security/audit.py:196-202 | missing numbers over all gaps plus entries equal last - first + 1 |
| GlobalSequence.DeletionIsFlagged | backend/app/services/security/audit.py:181-202 | removing an entry between two others is flagged whenever the limit reaches beyond its place, gaps elsewhere or not |
| GlobalSequence.DeletionUnnoticedBeyondLimit | backend/app/services/security/audit.py:181-202 | from a contiguous log it goes unnoticed if and only if the limit does not reach beyond its place |
| GlobalSequence.OneDeletionOneGap | backend/app/services/security/audit.py:196-202 | from a contiguous log it leaves exactly one gap, the deleted number |
| GlobalSequence.RollbacksLookLikeDeletions | backend/app/services/security/audit.py:68-81 | for every limit, an untampered log passes if and only if no transaction between two committed ones whose numbers are read rolled back |
| RefreshTokens.TokenStore.StoreRefresh | backend/app/auth.py:37-45 | exactly one unrevoked token is added |
| RefreshTokens.TokenStore.CreateTokenPair | backend/app/auth.py:48-50 | a login adds one token and answers with it |
| RefreshTokens.TokenStore.RotateRefreshToken | backend/app/auth.py:53-83 | answer and new table for every outcome, with the revocation loop over the bounded query |
| RefreshTokens.TokenStore.Refresh | backend/app/database.py:27-36 | through the route's session the table changes only when a token is issued |
| RefreshTokens.AnsweredExactlyWhen | backend/app/auth.py:60-83 | accepted if and only if stored, unrevoked, not past its expiry and of an active owner, and then for that owner; each refusal exactly for its reason |
| RefreshTokens.RotationLeaves | backend/app/auth.py:65-83 | the tokens after each outcome, field by field |
| RefreshTokens.LoginLeaves | backend/app/auth.py:37-50 | a login adds its token for thirty days and touches no other |
| RefreshTokens.NotAcceptedAfterExpiry | backend/app/auth.py:63-64 | over any run, a token is refused as expired from thirty days after it was issued |
| RefreshTokens.UnusedTokenIsAccepted | backend/app/auth.py:53-83 | a login's token is accepted from an active owner until then |
| RefreshTokens.OneLivePerFamily | backend/app/auth.py:37-83 | over any run of logins and rotations a family has at most one unrevoked token |
| RefreshTokens.BoundedIsUnbounded | backend/app/auth.py:65-74 | whatever rows the limited query returns, it revokes what an unbounded one would |
| RefreshTokens.ReuseKillsExactlyWhenKept | backend/app/auth.py:65-77 | a detected reuse ends the family if and only if its writes are kept or it had ended before |
| RefreshTokens.NoTokenAfterReuse | backend/app/auth.py:53-83 | after one kept reuse no token of the family is ever accepted again, in any continuation |
| RefreshTokens.AcceptedOnce | backend/app/auth.py:78-83 | over any run a token buys at most one successor |
| RefreshTokens.RolledBackReuseSpares | backend/app/database.py:32-34 | in the run login, rotation, reuse of the old token: the reuse is detected, and afterwards the live token is accepted when the revocation is rolled back and refused as reused when it is kept |
| RefreshTokens.ExpiredReuseIsSilent | backend/app/auth.py:63-77 | in such a run with the reuse after the old token's expiry, it is answered as expired and the live token is accepted even if the writes were kept |
| DeadLetter.DeadLetterEntry.Replay | backend/app/services/dead_letter.py:67-99 | outcome and new entry for every branch, with or without a failing broker or commit |
| DeadLetter.DecidedExactlyWhen | backend/app/services/dead_letter.py:72-88 | each outcome of a call, if and only if the entry and the time are as it says |
| DeadLetter.ReplayLeaves | backend/app/services/dead_letter.py:74-92 | what each outcome leaves in the entry |
| DeadLetter.DispatchesAreCounted | backend/app/services/dead_letter.py:74-92 | dispatches are the replay count plus those whose commit failed; the count never exceeds the maximum |
| DeadLetter.SuppressionIsFinal | backend/app/services/dead_letter.py:72-78 | suppression is permanent and follows only exhausted replays |
| DeadLetter.DispatchesAreSpaced | backend/app/services/dead_letter.py:79-89 | consecutive dispatches are at least the configured backoff apart when commits succeed |
| DeadLetter.RateIsBounded | backend/app/services/dead_letter.py:74-89 | for every configured maximum and backoff: by time t at most min(max, 1 + (t - first) / backoff) dispatches when commits succeed |
| DeadLetter.FailedCommitsAreUnbounded | backend/app/services/dead_letter.py:85-92 | with failing commits the same task can be dispatched any number of times at once, unless no replay is allowed at all |
| ZScores.FewExceed | backend/app/services/profiler.py:96-102 | at most a ninth of a column's values exceed three standard deviations, and none of nine or fewer |
| ZScores.ScoresAreStandard | backend/app/services/profiler.py:96-99 | every score is the squared distance from the mean over the variance, the mean squared distance, and 0 where there is no variance |
| ZScores.SumAdds | backend/app/services/profiler.py:97 | sums are taken value by value |
| ZScores.ScatterAdds | backend/app/services/profiler.py:97 | and so are sums of squared distances |
| ZScores.NoVarianceIsConstant | backend/app/services/profiler.py:98-99 | there is no variance exactly in a constant column |
| ZScores.DeviationsCancel | backend/app/services/profiler.py:97 | the deviations from the mean add up to 0 |
| ZScores.ScoresAddUp | backend/app/services/profiler.py:96-97 | the squared scores of a column that is not constant add up to the number of its values |
| ZScores.ScoresAreInvariant | backend/app/services/profiler.py:96-97 | scores depend neither on the unit nor on the origin of a column |
| Anomalies.DetectAnomalies | backend/app/services/profiler.py:90-122 | reports the top of the rows over the cut, by the scores of the table's own columns: highest score first, none twice, each with its index, its squared score and the first column that reaches it |
| Anomalies.FrameIsTheTable | backend/app/services/profiler.py:92-94 | the scan looks at the table's numeric columns over the rows that are complete in them |
| Anomalies.ReportsTheTop | backend/app/services/profiler.py:101-120 | every result is a row with its highest score, over the cut, and the first column that has it; highest first, none twice; every row over the cut is reported unless as many as asked for score no less |
| Anomalies.IdxMax | backend/app/services/profiler.py:110-112 | the first column with the row's highest score |
| Anomalies.OutliersAreFew | backend/app/services/profiler.py:96-105 | n complete rows and k numeric columns have at most k * n / 9 outliers, and none when n is 9 or less |
| Anomalies.ReportedAreOutliers | backend/app/services/profiler.py:105-120 | however ties are broken, as many outliers as fit are reported, none twice, highest score first |
| Anomalies.UnreportedScoreLower | backend/app/services/profiler.py:105-120 | an outlier that is not reported scores no higher than any reported one |

## Left out

- Requests are assumed to be shorter than the 24-hour life of their key: the clock does not pass the
  expiry of a key its request still uses.
- The advisory locks are not modelled; mutual exclusion rests on the UNIQUE constraints, because the
  lock ids come from a hash that differs between processes.
- The SELECT and the write of `complete_idempotency_key` and of `complete_execution_dedup` are one
  step each.
- Deleting users, pipelines, datasets and executions, dataset changes after an upload, and the
  idempotency keys of dataset uploads are not part of this model.
- `hash_request_body`, SHA-256 and the HMAC are parameters. Only `AuditTamper` assumes the HMAC
  to be injective; nothing is assumed of the step hash, whose collisions the results name. Steps are
  values, so the order of keys in their JSON is not visible.
- The session's own commit at the end of a request writes only the audit entry; its failure, like
  that of the audit call before it, is the fault after the third commit.
- A job's Celery id, timestamps for display, durations, schema warnings of an execution, the
  returned status codes and log lines carry no behaviour here.
- `executor.py`: streaming mode, timings, and failures of the final collect and of the conversion
  back to pandas.
- Numbers are reals: floating-point rounding, NaN, infinities, integer overflow and the conversion
  between integer and float columns are not modelled.
- `validate_pipeline_steps` enters the worker's state machine as a parameter; `Validator` models the
  function itself.
- Transforms `standardize` (square root), `encode_categorical`, `remove_outliers` (quantile
  interpolation), `convert_types`, `select_columns` and `drop_columns`: library-dependent, or they
  would only add easy members. The executor and `PipelineRewrites` hold for arbitrary functions in
  their place.
- ColumnScaling.FilledColumns: says nothing about filling with the median, which is a parameter of
  the model because the library computes it.
- GroupBy.MeansStayWithin: bounds for the mean instead of its conservation, because means of groups
  do not add up.
- RowFilters.DuplicatesGone: a column requested twice is taken to count once.
- Validator.ValidateStep: characters are classified and lower-cased one by one through parameters,
  so lower-casing that changes a string's length, and integers too large for float(), are not
  captured; a threshold string for NaN or infinity is reported as not a number.
- AuditChain.AuditTrail.Audit: the stored timestamp is the hashed one and each append is flushed
  before the next, as the design intends; in the code the column is filled by the server and
  sessions do not flush by themselves. `prev_hash` has no length here; a database that enforces
  the column's 64 characters refuses the 72 of GENESIS and with them every user's first entry.
- RefreshTokens.TokenStore.RotateRefreshToken: rotations are atomic; two concurrent rotations of one
  token are not modelled. Access tokens, passwords and lockout are left out.
- DeadLetter.DeadLetterEntry.Replay: two overlapping replays of one entry are not modelled, and the
  message with the remaining wait is left out.
- Anomalies.DetectAnomalies: scores are squared, unrounded z-scores; the row's data and the text of
  the explanation are left out.
- Profiles, smart suggestions, correlations, CSV decoding and sanitising, the AI translator, storage
  transfers, middleware, metrics and all React components are not part of this model.
- Liveness: nothing is claimed about expired keys that are not purged, or about retries after a
  recorded failure; only safety is proved.
