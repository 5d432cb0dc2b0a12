# Verified models of the platform's protocols, engines and arithmetic

Each module models one part of the platform as the code does it and proves what that part is for, over
all inputs, all schedules or all runs. `dafny verify dfyconfig.toml` checks everything.

| module | part | main results |
|---|---|---|
| `StorageMigration` | moving assets to the active store, next to deletions, uploads and crashes | no interleaving loses bytes, with exact conditions on rows and schedules; every chosen asset reported once, on each list exactly for its reason; progress |
| `ImageWorker` | the three image workers under asyncio | mutual exclusion, every answer decided by the schedule, cancellation wins, results are final, no deadlock |
| `AgentApproval` | one approval round: reviewers against each other and a cancel | each call decided once, the run claimed once and last, exactly one resume, a cancellation is final |
| `AgentRun` | the agent graph with budgets, pauses, checkpoints and crashes | only approved calls run, each wanted call exactly once, budgets hold, delivery follows the verdict, every invocation ends |
| `RawCopy` | the memoised copy of cyclic, shared, proxied graphs | the copy is isomorphic, exactly when no key `__proto__` is met; it keeps sharing and has no proxies |
| `EventStream` | the incremental reader of server-sent events | the same result for every cutting of the text; what was written is read back |
| `AvatarEngine` | the clock-free morphing engine | seamless state and look changes in any run, hull and range invariants, exact condition for shapes |
| `EyeFit` | the directional solver for the eyes | brackets, target met or no worse, near-optimality, nearest approach |
| `LoginBackoff` | the failure budget of administrator logins | a tight bound on failures per time for every policy |
| `Alerts` | alert evaluation | events in step with conditions after every run; repeating does nothing |
| `Cycles` | montage timeline, names and storage | inverse and periodic lookup, permutation, pigeonhole, round trip |
| `Billing`, `Reconciliation` | charges, the two cost formulas, the ledger audit | rounding bounds with exact conditions, order independence, conservation, exact audit |

## How the models are built

Protocols are state machines: an event is what runs between two points where another party may act
(one database statement, one storage request, one stretch of a coroutine between real suspension
points), `Step` is its effect, `Run` folds a schedule, and the theorems are about every `Run`. Beside
each machine a class has the source's fields and methods; each method is proved to do exactly the
steps of the machine, with arbitrary steps of others in between where the source awaits, so the
theorems hold of the fields at every moment. Loops over collections are methods with invariants,
proved equal to functions that the lemmas are about. Hashing is taken as free of collisions. In the
engine and the solver numbers are reals; money and tokens are integers; durations of the timeline are
hundredths of a second.

Where the code and a natural reading of it differ, the code is followed and the exact condition is
proved: `StorageMigration.SafeExactlyWithoutAliases`, `StorageMigration.SafeScheduleIff`,
`RawCopy.CopyIsExactIff`, `AvatarEngine.SetShapeIsSeamlessIff`, `Billing.AuditAgreesIff`,
`Billing.LocalizingNeverFallsShortIff`, `Cycles.ClampIsIdempotentIff`. An interrupted external tool
call is not repeated by the next invocation, but two crashes in a row defeat that: the first restart
marks the row FAILED, and a FAILED row is executed again (`AgentRun.ReplayTakesTwoCrashes`, with the
exact condition in `AgentRun.ExternalCallRunsIff`). A floor of the timeline that
rounds up to the next step would move a stored duration once more on reload; none of the shipped
floors does.

## Model

| member | source | states |
|---|---|---|
| StorageMigration.NoInterleavingLosesBytes | server/src/assets/assets.service.ts:291-336 | In every interleaving of any number of batches on one target with deletions, uploads and crashes at any step, partial writes and lost answers included, a live row finds its original bytes where it points if and only if its object was not deleted in the belief that its insert had failed; condition: at the start no live row both aliases the target and passes the checks |
| StorageMigration.SafeScheduleIff | server/src/assets/assets.service.ts:86-105 | Exact condition on the schedule: nothing is ever lost in it if and only if no insert that took effect was answered with an error and then cleaned up while its row was live |
| StorageMigration.RevokedWasLost | server/src/assets/assets.service.ts:102-105 | Every asset lost that way has, in this order in the schedule, an insert of its own row that took effect (row absent before, there after) with its answer lost, and a deletion by the same process that found the row live |
| StorageMigration.LostInsertLoses | server/src/assets/assets.service.ts:115-121 | The failing run, from every quiet service: an upload or generated file whose insert commits although the database reports an error ends as a live row without its object |
| StorageMigration.LostInsertExample | server/src/assets/assets.service.ts:86-105 | One such run at concrete values: one byte uploaded to an empty service on the local disk |
| StorageMigration.AssetIsSafeIff | server/src/assets/assets.service.ts:307-329 | Exact condition for one asset of a quiet service: no run ever leaves it live without its bytes if and only if its row does not name the target under another location, or its bytes fail the checks on reading |
| StorageMigration.SafeExactlyWithoutAliases | server/src/assets/assets.service.ts:307-329 | Exact condition for the service, whatever drivers and checksums its rows have: all schedules in which no insert is lost are safe if and only if no live row both names the target under another location and passes the checks |
| StorageMigration.AliasedIsLost | server/src/assets/object-storage.service.ts:112-112 | The failing run for every such row: one with an empty bucket aliases the target, is compared with itself, and loses its only copy to the deletion of the "source" |
| StorageMigration.ReportsAddUp | server/src/assets/assets.service.ts:300-335 | In every run, aliases or not: the two lists of a reported batch hold exactly the chosen assets, each in one of them and once; warnings name migrated assets, every migrated row is at the target, and no two batches claim one asset |
| StorageMigration.ListsAreExact | server/src/assets/assets.service.ts:304-333 | In every run, for every batch and asset, why it is on a list, told by the schedule: in the warnings exactly when in its turn a deletion of a source selected with driver S3 was answered with an error; migrated exactly when in its turn a successful compare-and-set found the row where it was selected; failed exactly when in its turn a request failed or found something that does not match |
| StorageMigration.UndisturbedBatch | server/src/assets/assets.service.ts:304-335 | Progress: left alone with no failing request, a batch of rows with known drivers and no aliases moves exactly the movable ones (bytes at the target, row pointing there with the checksum, source gone), lists the others as failed, untouched, and changes nothing else |
| StorageMigration.UndisturbedStore | server/src/assets/assets.service.ts:75-106 | An upload nobody disturbs leaves a live row with key, target, size and checksum that finds its bytes, and changes nothing else |
| StorageMigration.UndisturbedRemove | server/src/assets/assets.service.ts:234-239 | A deletion nobody disturbs marks the row and takes the object from where the row said it was |
| StorageMigration.DamagedIsNeverMoved | server/src/assets/assets.service.ts:307-310 | A row whose object is missing or differs from its recorded size or checksum keeps its location, size and checksum in every run |
| StorageMigration.RunKeepsInv | server/src/assets/assets.service.ts:291-336 | The invariant behind it (where each live row finds its bytes, what each migrator holds at each point, who may be writing which object) holds in every run for all assets but the revoked ones, whose objects nobody can put back |
| StorageMigration.StepKeepsInv | server/src/assets/assets.service.ts:234-257 | Every single step of batches, user and admin deletions, uploads, lost inserts and crashes keeps that invariant, except the one that deletes the object of a live row |
| StorageMigration.SwitchKeepsInv | server/src/assets/assets.service.ts:321-326 | The compare-and-set of the row keeps it, whether it takes effect, finds the row changed, or answers with an error |
| StorageMigration.PutKeepsInv | server/src/assets/object-storage.service.ts:89-96 | So does the create-only local write and the S3 put, refused, partial or complete |
| StorageMigration.DeleteSourceKeepsInv | server/src/assets/assets.service.ts:327-329 | So does deleting the source after the row has moved |
| StorageMigration.MarkDeletedKeepsInv | server/src/assets/assets.service.ts:234-237 | So does marking a row deleted before its object goes |
| StorageMigration.DeleteRemovedKeepsInv | server/src/assets/assets.service.ts:251-255 | So does the deletion of the object of a marked row |
| StorageMigration.PutNewKeepsInv | server/src/assets/assets.service.ts:75-85 | So does writing the object of an upload before its row exists |
| StorageMigration.CreateRowKeepsInv | server/src/assets/assets.service.ts:86-106 | So does creating its row, failing to, or creating it with a lost answer |
| StorageMigration.CleanUpKeepsInv | server/src/assets/assets.service.ts:115-121 | So does the deletion of the object whose row could not be created, unless the row is there after all |
| StorageMigration.OthersLeaveFrame | server/src/assets/assets.service.ts:300-302 | A step of one process leaves the lists and the program point of every other process alone |
| StorageMigration.AssetsService.constructor | server/src/assets/assets.service.ts:291-293 | The service starts in the given world with an empty history |
| StorageMigration.AssetsService.MigrateToActive | server/src/assets/assets.service.ts:291-336 | The batch loop, with anything happening in between: the two lists hold exactly the chosen assets, each once; each asset is in migrated, failed or warnings exactly when an event of the history put it there (for warnings: a failed deletion of a source selected with driver S3); it aborts exactly when some chosen row has an unknown driver |
| StorageMigration.AssetsService.MigrateEach | server/src/assets/assets.service.ts:304-333 | The loop over the selected assets: it goes through all of them, or stops at the first unknown driver |
| StorageMigration.AssetsService.MigrateOne | server/src/assets/assets.service.ts:304-333 | One turn of the loop appends the asset to migrated or to failed, never to both; a migrated one ends with the deletion of its source, and is warned about exactly when that failed and the source was on S3 |
| StorageMigration.AssetsService.CopyVerified | server/src/assets/assets.service.ts:307-319 | The try block up to the row update: it goes on only with the target known to hold the bytes that this batch read, at some moment since, from the source and accepted |
| StorageMigration.AssetsService.CompareOrPut | server/src/assets/assets.service.ts:312-319 | An existing equal object at the target is accepted, a different one is a failure, a missing one is written |
| StorageMigration.AssetsService.ReadSource | server/src/assets/assets.service.ts:307-310 | What it returns is what the source held, with the recorded size and, if recorded, checksum |
| StorageMigration.AssetsService.ReadTarget | server/src/assets/object-storage.service.ts:124-140 | Reading the target tells apart: absent, the same bytes, anything else |
| StorageMigration.AssetsService.PutBytesAt | server/src/assets/object-storage.service.ts:89-96 | A local write goes piece by piece and may stop anywhere; only a complete one succeeds |
| StorageMigration.AssetsService.UpdateLocation | server/src/assets/assets.service.ts:321-326 | The row moves to the target only if it still has the location the batch selected; a lost answer counts as failed |
| StorageMigration.AssetsService.DeleteSource | server/src/assets/object-storage.service.ts:153-156 | It warns exactly when the deletion fails and the row was selected with driver S3; local errors are swallowed |
| StorageMigration.AssetsService.Select | server/src/assets/assets.service.ts:294-299 | The batch works on a snapshot of the rows it selected |
| StorageMigration.AssetsService.Abort | server/src/assets/assets.service.ts:60-63 | An unknown driver throws outside the try block and ends the batch |
| StorageMigration.AssetsService.Remove | server/src/assets/assets.service.ts:251-257 | A deletion marks a live row, then deletes its object; an unknown or deleted row is refused |
| StorageMigration.AssetsService.MarkRow | server/src/assets/assets.service.ts:236-236 | The row is marked deleted unless the update is refused, and the caller learns of it only when it succeeds |
| StorageMigration.AssetsService.Store | server/src/assets/assets.service.ts:75-122 | An upload or a generated file: stored means that its row, with size and checksum, stands at the target; otherwise the last thing done is the deletion of the object, after which it is gone unless the request was refused, or, for a generated file, the failed write |
| StorageMigration.AssetsService.WriteNew | server/src/assets/assets.service.ts:83-85 | Only data of an allowed size is written; a failed write is cleaned up for an upload and left for a generated file |
| StorageMigration.AssetsService.InsertRow | server/src/assets/assets.service.ts:86-101 | The row records the key, the target, the size and the checksum just written, and is there after a lost answer too |
| StorageMigration.AssetsService.CleanUpNew | server/src/assets/assets.service.ts:102-105 | The object of a failed upload is deleted, errors ignored |
| StorageMigration.AssetsService.NothingIsLost | server/src/assets/assets.service.ts:291-336 | At any moment of the service, a live row has its bytes if and only if it was not taken for a failed insert |
| ImageWorker.EveryScheduleIsSafe | workers/image-tools/app.py:144-177 | From any results on disk, in every schedule of requests and cancels: at most one request per task between activation and cleanup, at most MAX_CONCURRENCY slots held, active tasks exactly those inside the try block, cancelled within active |
| ImageWorker.CancelWins | workers/image-tools/app.py:166-189 | Whenever cancel answers "cancelling", nothing is published yet, one run holds the task lock, and that run never answers with a result in any continuation |
| ImageWorker.NoInferenceForPublishedTask | workers/image-tools/app.py:149-165 | No step starts an inference for a task whose result is already published |
| ImageWorker.PublishedOnce | workers/iopaint/app.py:208-213 | A published result, one of an earlier life of the worker included, is never replaced or withdrawn |
| ImageWorker.NeverStuck | workers/realesrgan/app.py:164-189 | While a request is unanswered some coroutine can be resumed, and that brings it nearer to its answer and moves no other |
| ImageWorker.EveryAnswerIsRight | workers/image-tools/app.py:144-172 | In every schedule, which answer a request ends with is decided by the schedule: a cached image when there is one, the fresh image exactly when the thread returned it, the file was written and no cancel of its task came while it was active, 409, 500 and 4xx exactly in the other cases; an answer stays |
| ImageWorker.InferenceIsAnswered | workers/iopaint/app.py:207-213 | From every reachable state, the end of an inference publishes the image, as answer and as result of its task, exactly when the thread returned it, the task is not cancelled and the file was written; else results are unchanged, and the answer is 409 exactly when the thread returned and the task is cancelled |
| ImageWorker.ToldIsRecorded | workers/image-tools/app.py:156-168 | While a run is between activation and cleanup, the cancelled set has its task exactly when a cancel request came since, and never one from before |
| ImageWorker.ResultsWerePublished | workers/image-tools/app.py:170-172 | A task has the result it had on disk, or else the image that one of its requests published; whoever was answered with a fresh image finds it as the result |
| ImageWorker.ReplyIsRight | workers/image-tools/app.py:180-189 | A cancel request is told that the task is completed, under way or not running exactly when it is |
| ImageWorker.UndisturbedRequest | workers/image-tools/app.py:148-177 | On every reachable worker with a free slot, a new request for an idle task reads its uploads one by one, runs after the last, publishes its image, and leaves locks, registries and slots as they were |
| ImageWorker.RunKeepsInv | workers/iopaint/app.py:187-218 | The invariant relating lock holders, registries, slots and program points is kept by every run |
| ImageWorker.StepKeepsInv | workers/realesrgan/app.py:161-194 | Each segment between two suspension points keeps it |
| ImageWorker.CancelKeepsInv | workers/iopaint/app.py:222-230 | So does cancel, which finds the registry lock free |
| ImageWorker.EndKeepsInv | workers/image-tools/app.py:166-177 | So does the segment from the end of the thread through the last check, the publication and the finally block |
| ImageWorker.DoomedForever | workers/image-tools/app.py:161-169 | A run told to stop can only wait for its slot or thread or end without a result |
| ImageWorker.Worker.Arrive | workers/image-tools/app.py:144-151 | Cache hit, waiting for the task lock, or entering it; registry lock free before and after, as in every segment |
| ImageWorker.Worker.EnterLock | workers/iopaint/app.py:191-194 | The cache is looked at again under the lock |
| ImageWorker.Worker.LockGranted | workers/image-tools/app.py:149-151 | A waiter gets the lock only when nobody holds it |
| ImageWorker.Worker.InputRead | workers/iopaint/app.py:195-203 | Reading and checking the image, and the mask if this request sent one, then activation and the way to a slot |
| ImageWorker.Worker.StartInference | workers/image-tools/app.py:161-165 | The cancelled check inside the slot, then the inference thread; the registry lock is free on entry and exit and was never found taken |
| ImageWorker.Worker.SlotGranted | workers/iopaint/app.py:203-207 | A waiting request takes a free slot or stops because it was cancelled |
| ImageWorker.Worker.InferenceEnded | workers/iopaint/app.py:208-213 | From the end of the thread to the response: published with the image exactly when the thread returned it, the task is not cancelled and the file was written, cancelled or failed otherwise, and then no result changes |
| ImageWorker.Worker.Conclude | workers/image-tools/app.py:166-172 | The last look at the cancelled set, then the file: which of the three outcomes it is |
| ImageWorker.Worker.Cleanup | workers/realesrgan/app.py:190-194 | The finally block leaves both registries without the task and frees the lock; the registry lock is free on entry and exit and was never found taken |
| ImageWorker.Worker.Cancel | workers/image-tools/app.py:180-189 | Already completed, not running, or cancelling, each exactly when it is so; only the last marks the task |
| ImageWorker.Worker.Serve | workers/image-tools/app.py:144-189 | Any schedule leads the fields where the machine says, they are safe, and no coroutine ever finds the registry lock taken |
| AgentApproval.ClaimedOnceAndLast | server/src/agent-tasks/agent-tasks.service.ts:264-268 | A run leaves WAITING_APPROVAL by review only when no call of the iteration is pending, and only if nobody had claimed it |
| AgentApproval.ExactlyOneResume | server/src/agent-tasks/agent-tasks.service.ts:254-279 | If every call is decided, every reviewer finishes and nobody cancels, one reviewer claimed the run; one job is queued and run and task are QUEUED, or the enqueue reported an error, both are FAILED, and the job is queued or not |
| AgentApproval.LostJobStaysQueued | server/src/agent-tasks/agent-tasks.service.ts:270-276 | And it may be: a job added although the queue reported an error stays queued for a run and task that are FAILED |
| AgentApproval.AtMostOneJob | server/src/agent-tasks/agent-tasks.service.ts:269-276 | At most one resume job is ever added in a round |
| AgentApproval.EachCallDecidedOnce | server/src/agent-tasks/agent-tasks.service.ts:260-262 | A reviewer that got past the compare-and-set decided its call, the row still says so, and no other reviewer decided the same call |
| AgentApproval.NothingIsUndone | server/src/agent-tasks/agent-tasks.service.ts:235-239 | Decisions, the claim, leaving the waiting status and a cancellation are never undone, whatever reviewers and cancels do |
| AgentApproval.CancelIsFinal | server/src/agent-tasks/agent-tasks.service.ts:228-239 | In every run, a cancellation that found the task active leaves no queued job right after the removal; from its commit on neither task nor run is active, in any continuation: each is cancelled, unless it had been failed before, and nobody claims the run any more |
| AgentApproval.LateCancelDoesNothing | server/src/agent-tasks/agent-tasks.service.ts:230-230 | A cancel that finds the task ended changes neither rows nor jobs |
| AgentApproval.EveryReplyIsRight | server/src/agent-tasks/agent-tasks.service.ts:254-278 | What a reviewer is told is decided by what it found: turned down exactly when the task did not wait or the call was decided already, recorded exactly when calls were left or the run had moved on, resumed or not as the queue answered; a reply stays |
| AgentApproval.NobodyWaits | server/src/agent-tasks/agent-tasks.service.ts:254-278 | The next statement of a reviewer always brings it nearer to its reply, whatever the others do |
| AgentApproval.RunKeepsInv | server/src/agent-tasks/agent-tasks.service.ts:254-279 | The invariant over all interleavings of reviewers, cancels and crashes |
| AgentApproval.StepKeepsWatched | server/src/agent-tasks/agent-tasks.service.ts:264-266 | While run and calls still wait with nothing pending, some reviewer is yet to claim |
| AgentApproval.AgentTasksService.ReviewToolCall | server/src/agent-tasks/agent-tasks.service.ts:254-279 | The whole review with others in between; its answer is the point the reviewer reached |
| AgentApproval.AgentTasksService.DecideCall | server/src/agent-tasks/agent-tasks.service.ts:261-262 | The compare-and-set on the approval status: it takes effect exactly when the call is still pending, and leaves it as decided |
| AgentApproval.AgentTasksService.CountRemaining | server/src/agent-tasks/agent-tasks.service.ts:264-265 | Nothing is left exactly when no call is pending, counted after the own decision |
| AgentApproval.AgentTasksService.ClaimRun | server/src/agent-tasks/agent-tasks.service.ts:266-267 | The compare-and-set from waiting to queued: exactly when the run still waits, and the claimer is who won it |
| AgentApproval.AgentTasksService.QueueTask | server/src/agent-tasks/agent-tasks.service.ts:268-268 | The task follows only if it is still waiting |
| AgentApproval.AgentTasksService.Enqueue | server/src/agent-tasks/agent-tasks.service.ts:269-272 | The resume job is added, refused, or added although adding it reports an error |
| AgentApproval.AgentTasksService.RecordFailure | server/src/agent-tasks/agent-tasks.service.ts:285-292 | A failed enqueue fails task and run, unless they were cancelled meanwhile |
| AgentApproval.AgentTasksService.CancelTask | server/src/agent-tasks/agent-tasks.service.ts:227-242 | With everybody else at each await: if the task was active, the jobs were removed to none, the commit came last, and neither task nor run is active any more, each cancelled unless it was failed just before; otherwise nothing changes |
| AgentApproval.AgentTasksService.EndTask | server/src/agent-tasks/agent-tasks.service.ts:235-239 | The transaction: an active task or run becomes cancelled, a failed one stays failed |
| AgentApproval.AgentTasksService.DropJobs | server/src/agent-tasks/agent-tasks.service.ts:232-233 | No queued job of the task is left |
| AgentRun.OnlyApprovedCallsRun | server/src/agent-tasks/agent-tasks.processor.ts:158-213 | Over any crashes, restores, replans and reviews: a call that requires approval is executed only on an input approved after it was written, and a rejected input is never executed, before or after its rejection |
| AgentRun.EachCallIsDealtWith | server/src/agent-tasks/agent-tasks.processor.ts:165-225 | When the draft is about to start, each row of the iteration has been dealt with since the tools were entered: executed exactly once, with its stored result as status, if it was not rejected, not SUCCEEDED, of a known tool and no interrupted external call; not at all, and skipped, kept or failed, otherwise; a budget stop leaves only its own row skipped and the ones after it as they were |
| AgentRun.OnlyWantedCallsRun | server/src/agent-tasks/agent-tasks.processor.ts:176-213 | At any moment of such a visit, thrown or crashed ones included: every execution since the entry is of a row of the iteration, on the input it had then, wanted, hence not SUCCEEDED before, and the only one of that row |
| AgentRun.NextCallDecides | server/src/agent-tasks/agent-tasks.processor.ts:178-207 | The next call is passed over, stops the loop or is reserved exactly as approval, status, tool, deadline and counts say, with the status its row gets |
| AgentRun.InterruptedIsMarked | server/src/agent-tasks/agent-tasks.processor.ts:194-209 | In every run the row of a running tool says RUNNING, and a crash leaves it saying so, which is what keeps the next invocation from repeating an external call |
| AgentRun.ReplayTakesTwoCrashes | server/src/agent-tasks/agent-tasks.processor.ts:183-201 | That protection holds for one crash only: the restart marks the interrupted external call FAILED, and after a second crash before the draft the next restart executes the same input again |
| AgentRun.ExternalCallRunsIff | server/src/agent-tasks/agent-tasks.processor.ts:183-201 | Exact condition: a visit to the tools that gets to its end executes an external call if and only if it found the row not rejected and PENDING, FAILED or SKIPPED, so not one that says RUNNING |
| AgentRun.PersistedRows | server/src/agent-tasks/agent-tasks.processor.ts:316-326 | Persisting a plan leaves its actions, fresh and in order, and of the earlier rows of the iteration those that were begun, untouched |
| AgentRun.PausesIff | server/src/agent-tasks/agent-tasks.processor.ts:165-176 | From every reachable state with credit left, entering the tools pauses the run exactly when some call of the iteration is undecided, and else takes up all its rows |
| AgentRun.CheckpointsAreResumed | server/src/agent-tasks/agent-tasks.processor.ts:95-111 | After a persisted plan a crash and a restart lead to the tools with these rows, after the tools' checkpoint to the draft, so neither is done again |
| AgentRun.UndisturbedRun | server/src/agent-tasks/agent-tasks.processor.ts:113-311 | A run nobody disturbs, turned down once and then approved within its budgets, is delivered as a success in two iterations with every completion charged |
| AgentRun.BudgetsHold | server/src/agent-tasks/agent-tasks.processor.ts:349-374 | Executions ≤ toolCallCount ≤ maxToolCalls, searches likewise, and the credit exceeds its budget by less than its last charge |
| AgentRun.DeliveredOnlyAsJudged | server/src/agent-tasks/agent-tasks.processor.ts:255-302 | A run is delivered only by the invocation that judged it last, only if approved or exhausted, and as a success exactly when approved and exported; the iteration stays below maxIterations |
| AgentRun.SucceededOnlyAsJudged | server/src/agent-tasks/agent-tasks.processor.ts:297-301 | The stored status is SUCCEEDED exactly when the last turn was a successful delivery, PARTIAL exactly when it was the other, and SUCCEEDED means that an approving verdict and an export came before |
| AgentRun.DeliveryDecides | server/src/agent-tasks/agent-tasks.processor.ts:283-298 | At delivery the status becomes SUCCEEDED if the last verdict approved and the files were exported, else PARTIAL |
| AgentRun.InvocationEnds | server/src/agent-tasks/agent-tasks.processor.ts:57-75 | From any event to the next job start the worker takes at most 64 effective events per remaining iteration, whatever model, tools and reviewers do |
| AgentRun.StepLowersRank | server/src/agent-tasks/agent-tasks.processor.ts:66-73 | Every effective event of the worker lowers the measure (remaining iterations, node, calls left) |
| AgentRun.RunKeepsInv | server/src/agent-tasks/agent-tasks.processor.ts:46-93 | Approval, budget and graph invariants hold after every run |
| AgentRun.PersistKeepsApproval | server/src/agent-tasks/agent-tasks.processor.ts:314-329 | Rewriting a plan resets approvals with the inputs: every row still agrees with who decided its current input |
| AgentRun.EnterToolsKeepsApproval | server/src/agent-tasks/agent-tasks.processor.ts:165-174 | The snapshot the loop works from contains no undecided call |
| AgentRun.NextCallKeepsApproval | server/src/agent-tasks/agent-tasks.processor.ts:176-208 | Considering a call touches no approval; it reserves budget exactly for a row that is wanted while budget is left, and stops exactly for one that is wanted when none is |
| AgentRun.ExecuteKeepsApproval | server/src/agent-tasks/agent-tasks.processor.ts:209-213 | An execution happens only for a call of the snapshot, whose decision still stands |
| AgentRun.DecideKeepsApproval | server/src/agent-tasks/agent-tasks.service.ts:258-262 | A review writes its decision to the row and to the history, and keeps earlier executions justified |
| AgentRun.StepKeepsBudget | server/src/agent-tasks/agent-tasks.processor.ts:355-361 | Only a reservation raises the counts, an execution uses one up |
| AgentRun.TurnKeepsGraph | server/src/agent-tasks/agent-tasks.processor.ts:246-278 | Judging and replanning keep the iteration below its limit and the verdict tied to the history |
| AgentRun.DeliverKeepsGraph | server/src/agent-tasks/agent-tasks.processor.ts:280-304 | Delivering records what the verdict and the export allow |
| AgentRun.AgentTasksProcessor.constructor | server/src/agent-tasks/agent-tasks.processor.ts:46-48 | A run begins queued, before its first node, with nothing counted |
| AgentRun.AgentTasksProcessor.Process | server/src/agent-tasks/agent-tasks.processor.ts:46-75 | One job: claim, restore, and run the graph; the loop ends |
| AgentRun.AgentTasksProcessor.Claim | server/src/agent-tasks/agent-tasks.processor.ts:49-57 | Only a QUEUED or RUNNING run is claimed, and it goes on where its checkpoint says |
| AgentRun.AgentTasksProcessor.PrepareTask | server/src/agent-tasks/agent-tasks.processor.ts:113-134 | Prepare checkpoints the plan node |
| AgentRun.AgentTasksProcessor.AskModel | server/src/agent-tasks/agent-tasks.processor.ts:363-374 | The budget is asserted before the completion, whose cost is then charged |
| AgentRun.AgentTasksProcessor.PersistPlan | server/src/agent-tasks/agent-tasks.processor.ts:316-328 | One transaction leaves exactly the planned rows and the earlier ones it had to keep |
| AgentRun.AgentTasksProcessor.WriteRows | server/src/agent-tasks/agent-tasks.processor.ts:317-326 | Pending rows go, planned positions are written one after the other |
| AgentRun.AgentTasksProcessor.BeginTools | server/src/agent-tasks/agent-tasks.processor.ts:158-175 | It enters exactly with credit left and no undecided call, with all rows of the iteration as they are; pauses for undecided ones; fails without credit |
| AgentRun.AgentTasksProcessor.ConsiderCall | server/src/agent-tasks/agent-tasks.processor.ts:176-208 | It goes on to execute exactly when the call is not rejected, not SUCCEEDED, of a known tool, no interrupted external call, before the deadline and within both counts; it stops exactly when only the budget is missing |
| AgentRun.AgentTasksProcessor.ReserveBudget | server/src/agent-tasks/agent-tasks.processor.ts:355-361 | Deadline, call count and search count are checked before both counts are raised |
| AgentRun.AgentTasksProcessor.MarkStarted | server/src/agent-tasks/agent-tasks.processor.ts:209-209 | The row says RUNNING before the tool is called |
| AgentRun.AgentTasksProcessor.RunTool | server/src/agent-tasks/agent-tasks.processor.ts:212-212 | The execution enters the history with the stamp of the snapshotted input |
| AgentRun.AgentTasksProcessor.StoreResult | server/src/agent-tasks/agent-tasks.processor.ts:213-222 | The result is stored, or the failure |
| AgentRun.AgentTasksProcessor.ExecuteTools | server/src/agent-tasks/agent-tasks.processor.ts:158-227 | The loop over the calls ends, at a checkpoint from which the draft starts |
| AgentRun.AgentTasksProcessor.Conclude | server/src/agent-tasks/agent-tasks.processor.ts:254-261 | Approved, exhausted, or one more iteration |
| AgentRun.AgentTasksProcessor.NextIteration | server/src/agent-tasks/agent-tasks.processor.ts:264-267 | The iteration is raised within the budget |
| AgentRun.AgentTasksProcessor.DeliverAnswer | server/src/agent-tasks/agent-tasks.processor.ts:280-304 | SUCCEEDED or PARTIAL, as verdict and export say |
| AgentRun.AgentTasksProcessor.ThrowOut | server/src/agent-tasks/agent-tasks.processor.ts:76-85 | The catch block fails a run that is still queued or running, and no other |
| RawCopy.ToRaw | src/utils/clone.ts:10-13 | By the kinds of the objects: every array and plain object that the value leads to through slots and proxies, and no other object, has one new copy of the same kind, with its keys in order and under each what stands for the value; the heap is untouched; it throws exactly when something reachable is its own prototype at some remove |
| RawCopy.DeepToRaw | src/utils/clone.ts:15-32 | The recursion with the memo table: a proxy gives what its target gives, an array or plain object its one copy, anything else itself; all copies entered are complete on return |
| RawCopy.CopyContainer | src/utils/clone.ts:20-31 | A container met first is entered before its items, so cycles close on the copy |
| RawCopy.FillSlots | src/utils/clone.ts:28-31 | The loop that assigns key after key while the recursion extends the table |
| RawCopy.Append | src/utils/clone.ts:30-30 | Assigning to any other key adds a slot at the end and keeps the table in order |
| RawCopy.SetPrototype | src/utils/clone.ts:30-30 | Assigning to `__proto__` adds no slot: an object becomes the prototype, or the assignment throws because it would close a cycle; other values are ignored |
| RawCopy.LeadsTo | src/utils/clone.ts:30-30 | The walk up the prototypes ends; it finds the copy only if the sources name it, and if not, all chains still end once the copy is linked |
| RawCopy.CopyIsIsomorphic | src/utils/clone.ts:15-32 | For every path of keys through arrays, plain objects and proxies and every heap: it exists in the copy exactly when it exists in the original and does not take `__proto__` of a plain object, and leads to what stands for the value there |
| RawCopy.CopyIsExactIff | src/utils/clone.ts:28-30 | Exact condition: the copying returns and every path exists in the copy exactly when it does in the original, if and only if no reachable plain object has an own key `__proto__` |
| RawCopy.ProtoKeyIsLost | src/utils/clone.ts:28-30 | The failing input: an object whose one own key is `__proto__`, with a number under it, is copied to an object without keys |
| RawCopy.OwnPrototypeThrows | src/utils/clone.ts:30-30 | And one that has itself under that key cannot be copied at all |
| RawCopy.SharingIsPreserved | src/utils/clone.ts:15-19 | Two paths that exist in the copy meet there exactly when they lead to the same array or plain object of the original, whatever proxies they go through |
| RawCopy.CopyIsProxyFree | src/utils/clone.ts:16-17 | Neither the result nor any slot or prototype of a copy is of kind proxy, and every array or plain object in a slot is a copy |
| RawCopy.RawCopyIsByKind | src/utils/clone.ts:15-32 | The memo table read by kind: it has exactly the reachable arrays and plain objects, each with one copy outside the heap, of the same kind and with the same keys, holding what stands for the values |
| RawCopy.ProxiedItemIsCopied | src/utils/clone.ts:20-25 | A concrete case: an array holding a proxied object is copied to a new array of a new plain object |
| EventStream.StreamApiEvents | src/services/api.ts:113-138 | For every way of cutting the text into pieces, what is noted and how the stream settles depend only on the whole text: its blocks, the final remainder if it is not blank, up to the first that is not JSON |
| EventStream.SplitResumes | src/services/api.ts:130-132 | Splitting may stop anywhere, keep the last piece and go on: the same pieces as splitting the whole |
| EventStream.SplitIsExact | src/services/api.ts:114-130 | The pieces and the separators between them make up the text; each piece runs to the leftmost separator, the last has none |
| EventStream.SplitIsUnique | src/services/api.ts:114-130 | There is only one such division |
| EventStream.StreamIsReadBack | src/services/api.ts:113-138 | Round trip with section 9.2.6 of the WHATWG HTML Standard: events written with LF or CRLF, line by line, are noted one by one in order, up to the first whose data is not JSON, and the last state is the result |
| EventStream.WrittenSettles | src/services/api.ts:138-140 | How the promise settles on such a text: with an error exactly when some data is not JSON, without a state exactly when there is no message or the last one is falsy, else with the last one |
| EventStream.RemainderIsRead | src/services/api.ts:138-138 | The last message is read although its blank line is missing, and a blank remainder is no message |
| EventStream.SeparatorsAre | src/services/api.ts:114-130 | Lines end at LF or CRLF and nowhere else, blocks at two of these |
| EventStream.BlockIsConsumed | src/services/api.ts:113-122 | A block of any lines: its fields are noted first, then its data if there is some and it is JSON |
| EventStream.FieldIsFirst | src/services/api.ts:115-116 | A field is what follows its name in the first line that starts with it |
| EventStream.DataIsJoined | src/services/api.ts:118-118 | The data are the contents of the data lines in order, joined by LF, whatever stands between them |
| EventStream.TrimIsTight | src/services/api.ts:115-118 | Trimming takes all white space from both ends and nothing else |
| EventStream.ConsumeEach | src/services/api.ts:132-132 | The blocks of one read are consumed in order, and nothing after a failure |
| EventStream.MessageIsRead | src/services/api.ts:113-122 | A block of one event gives its id, its type and its parsed data |
| EventStream.FailureIsFinal | src/services/api.ts:119-120 | After JSON.parse has thrown nothing more is consumed |
| AvatarEngine.EveryChangeIsSeamless | src/assistant-avatar/engine.ts:365-422 | After any calls at any dates, the composed picture at the moment of a setState is the one just before it, chained changes in mid-fade included |
| AvatarEngine.ChangeIsSeamless | src/assistant-avatar/engine.ts:411-422 | The same from any state an engine can be in |
| AvatarEngine.FadeIsOver | src/assistant-avatar/engine.ts:381-391 | Once the fade is over only the current state is drawn, and the last blended picture was already that one |
| AvatarEngine.ChosenStateIsDrawn | src/assistant-avatar/engine.ts:269-422 | Once its fade is over the state asked for is drawn, with the chosen shape on its body and the chosen expression on its face exactly where the state lets them be chosen |
| AvatarEngine.FadeBlends | src/assistant-avatar/engine.ts:369-391 | During the fade the picture is blended from the frozen picture if a fade was interrupted, and else from the state that was left, which goes on moving |
| AvatarEngine.ChosenIsReached | src/assistant-avatar/engine.ts:182-267 | A shape, an expression or an accepted look is the one drawn when its morph is over |
| AvatarEngine.FadeEnds | src/assistant-avatar/engine.ts:92-120 | A blend draws its origin at 0 and its target at 1: radii, rotation up to full turns, eyes, opacities, decor, badge |
| AvatarEngine.EveryNumberGlides | src/assistant-avatar/engine.ts:92-120 | Each of the twenty numbers of a blended pose never recedes from its target, and moves by the share of the way that time gives |
| AvatarEngine.ResetForgets | src/assistant-avatar/engine.ts:352-359 | After a reset nothing of the states before is drawn any more, at any date |
| AvatarEngine.LookIsSeamless | src/assistant-avatar/engine.ts:244-267 | A new look starts where the old one was; a target that is not finite is refused |
| AvatarEngine.LookNeverRecedes | src/assistant-avatar/engine.ts:262-267 | The look only comes nearer to its target, at no more than five times the distance over the duration |
| AvatarEngine.LookStaysInHull | src/assistant-avatar/engine.ts:244-267 | Every number of the look stays between the bounds of the accepted targets and the resting look, in any run |
| AvatarEngine.OpacitiesStayInRange | src/assistant-avatar/engine.ts:92-120 | Poses blended from poses frozen in mid-blend keep every opacity between 0 and 1, in any run |
| AvatarEngine.SetShapeIsSeamlessIff | src/assistant-avatar/engine.ts:207-230 | Exact condition for the shape, which restarts from the previous target: no jump if and only if there was and is a shape and no morph in progress |
| AvatarEngine.ShapeJumps | src/assistant-avatar/engine.ts:207-230 | A concrete jump: a second change of shape while the first morph is on |
| AvatarEngine.ShortestTurnIsShortest | src/assistant-avatar/shape.ts:64-69 | The rotation taken differs from the wanted one by full turns and no such rotation is smaller |
| AvatarEngine.EasingClimbs | src/assistant-avatar/math.ts:3-17 | The easing of the clamped time climbs within [0, 1] and never faster than five times as fast as time |
| AvatarEngine.LerpWithin | src/assistant-avatar/math.ts:4-4 | Interpolation stays between its ends |
| AvatarEngine.TurnTheShortWay | src/assistant-avatar/shape.ts:66-68 | The two loops compute that rotation |
| AvatarEngine.Blend | src/assistant-avatar/shape.ts:59-75 | The loop over the samples fills in the interpolated radii, defaulting to 1 |
| AvatarEngine.BotEngine.constructor | src/assistant-avatar/engine.ts:166-176 | A new engine has no history and looks nowhere |
| AvatarEngine.BotEngine.ComposePose | src/assistant-avatar/engine.ts:381-391 | The composed pose, with the frozen origin or the state left |
| AvatarEngine.BotEngine.SetState | src/assistant-avatar/engine.ts:411-422 | Freezes only in mid-fade; the picture at that date is unchanged |
| AvatarEngine.BotEngine.Reset | src/assistant-avatar/engine.ts:352-359 | Leaves no previous state and no frozen pose |
| AvatarEngine.BotEngine.SetShape | src/assistant-avatar/engine.ts:207-212 | Remembers the shape before, ignores the same one |
| AvatarEngine.BotEngine.SetExpression | src/assistant-avatar/engine.ts:182-187 | Likewise for the expression |
| AvatarEngine.BotEngine.SetLook | src/assistant-avatar/engine.ts:244-260 | The look at that date is unchanged |
| LoginBackoff.FailuresPayForTime | server/src/auth/auth.service.ts:360-368 | For every policy, fractional ones included: n failures, at least the budget rounded up, in less than a window with no success cost at least the sum of the locks min(maxLock, base·2^(j − maxFailures)) of those past the budget, in whole milliseconds |
| LoginBackoff.NextFailureWaits | server/src/auth/auth.service.ts:341-366 | Each failure past the budget comes only after the lock its predecessors set |
| LoginBackoff.SoonestIsGated | server/src/auth/auth.service.ts:360-366 | The bound is exact to the millisecond: trying as soon as the gate opens gets through, under every policy |
| LoginBackoff.AtMostEightByDefault | server/src/auth/auth.service.ts:327-338 | With nothing configured, at most 8 failures in less than 15 minutes |
| LoginBackoff.EightIsReached | server/src/auth/auth.service.ts:327-338 | And 8 are possible, in 7 minutes |
| LoginBackoff.TruncationIsHarmless | server/src/auth/auth.service.ts:351-362 | Reading at most maxFailures + 16 failures, or the whole part of that, never changes the lock |
| LoginBackoff.SuccessReopens | server/src/auth/auth.service.ts:345-350 | Right after a success the count is 0 and the gate open |
| LoginBackoff.OldFailuresAreForgotten | server/src/auth/auth.service.ts:343-358 | Failures from before the window, or not after a success in it, are not counted: the gate is open |
| LoginBackoff.CountIsExact | server/src/auth/auth.service.ts:351-358 | What is counted is the number of failures in the log after the date the counting starts from |
| LoginBackoff.LockRunsOut | server/src/auth/auth.service.ts:363-366 | The longest lock after the last entry the gate is open |
| LoginBackoff.LockGrows | server/src/auth/auth.service.ts:364-364 | Locks never shrink as failures add up, nor exceed the maximum |
| LoginBackoff.RefusedBudgetLogsNothing | server/src/auth/auth.service.ts:351-362 | If the data layer refuses to read a fractional number of entries, a fractional maxFailures lets nobody in and leaves no trace of the attempts |
| LoginBackoff.PolicyOf | server/src/auth/auth.service.ts:327-338 | Whatever the environment says, the policy is within its bounds and the maximum lock at least the base; nothing is rounded |
| LoginBackoff.ConfiguredIsUsed | server/src/auth/auth.service.ts:327-338 | Each setting in its range is the one used, the bound below or above it, the default without a positive number |
| LoginBackoff.RunIsGated | server/src/auth/auth.service.ts:309-325 | Every log that calls can leave is one the gate let through entry by entry |
| LoginBackoff.EveryAttemptIsLogged | server/src/auth/auth.service.ts:309-325 | After any calls: the right password leaves a success, a wrong one a failure, at its date, exactly when the account may log in and is not locked; nothing is logged otherwise |
| LoginBackoff.AuthService.LoginAdmin | server/src/auth/auth.service.ts:309-325 | Refused, query error for a fractional limit, locked with the seconds rounded up, a failure recorded for a wrong password, or a success recorded and a session, each exactly when it should be |
| EyeFit.Resous | src/assistant-avatar/eyefit.ts:242-331 | The solver returns the origin, the least solved direction, or the best clearance probed, for any margins |
| EyeFit.AnswerMeetsTarget | src/assistant-avatar/eyefit.ts:252-286 | If some direction reaches the target, every trial keeps at least the margin asked, and the eyes inside |
| EyeFit.AnswerIsNeverWorse | src/assistant-avatar/eyefit.ts:292-329 | The tightest margin never gets worse |
| EyeFit.AnswerIsNearest | src/assistant-avatar/eyefit.ts:313-325 | The shift is within the course, and least up to a 256th of it against any direction that clears once and for all |
| EyeFit.BisectionBrackets | src/assistant-avatar/eyefit.ts:314-320 | At every step the target is missed at bas and met at haut, and haut − bas is the course halved that often |
| EyeFit.BisectionIsNearOptimal | src/assistant-avatar/eyefit.ts:314-320 | No distance shorter by a 256th of the course would do on such a direction |
| EyeFit.Dichotomie | src/assistant-avatar/eyefit.ts:314-320 | The eight halvings |
| EyeFit.Search | src/assistant-avatar/eyefit.ts:296-329 | The loop over the directions keeps the best solution and the best clearance of those that lead nowhere |
| EyeFit.ProbeAlong | src/assistant-avatar/eyefit.ts:300-311 | The three probes along a direction keep the best clearance so far |
| EyeFit.MargeIsTightest | src/assistant-avatar/eyefit.ts:245-250 | The margin of a shift is the tightest over all trials |
| EyeFit.MargeOf | src/assistant-avatar/eyefit.ts:245-250 | The loop over the trials computes it |
| EyeFit.ReferenceOf | src/assistant-avatar/eyefit.ts:255-258 | The loop over the trials finds the tightest reference |
| EyeFit.Approche | src/assistant-avatar/eyefit.ts:152-173 | No contour point is nearer to any point of the segment than the result, which is attained |
| EyeFit.ProjectionIsNearest | src/assistant-avatar/eyefit.ts:161-165 | The clamped projection is the nearest point of the segment, even one of no length |
| Alerts.EventsAreInStep | server/src/alerts/alerts.service.ts:75-102 | After evaluate the unresolved events of each enabled rule are those of its candidates, one row each, and rows of other rules are untouched |
| Alerts.EveryEvaluationIsExact | server/src/alerts/alerts.service.ts:75-102 | The same at the end of any run of evaluate, acknowledge, resolve, mute and update |
| Alerts.RepeatDoesNothing | server/src/alerts/alerts.service.ts:104-119 | Evaluating again before a cooldown has run out raises and resolves nothing, whatever was muted meanwhile |
| Alerts.EveryStatusIsRight | server/src/alerts/alerts.service.ts:108-109 | Every row of a rule evaluated ends MUTED, OPEN, RESOLVED or as it was, as its condition and the silence say; an acknowledgement is kept |
| Alerts.EveryRowIsRight | server/src/alerts/alerts.service.ts:94-114 | Row by row and in full: a row whose condition holds is seen now, with the text of the last report, muted, reopened or as it was, and its resolution date dropped unless muted; any other unresolved row is resolved at that date; a resolved one is left alone |
| Alerts.EveryNewRowIsRight | server/src/alerts/alerts.service.ts:105-118 | Each new row belongs to an evaluated rule and one of its candidates, and is open, or muted with its rule |
| Alerts.ResolvedCountsStale | server/src/alerts/alerts.service.ts:93-101 | The answered count of resolved events is that of the events unresolved before whose condition no longer holds |
| Alerts.RaisedCountsNotified | server/src/alerts/alerts.service.ts:93-119 | The answered count of raised events is that of the conditions, of rules not silenced, that had no event, a resolved one, or one unseen for a whole cooldown; a condition repeated in one evaluation counts again only for a rule without cooldown |
| Alerts.RunKeepsInv | server/src/alerts/alerts.service.ts:57-73 | One row per rule and fingerprint, after any run |
| Alerts.RuleIsInStep | server/src/alerts/alerts.service.ts:95-99 | One turn of the outer loop brings its rule in step and touches no other |
| Alerts.RaiseKeeps | server/src/alerts/alerts.service.ts:104-119 | Raising a candidate touches one row or adds one, and leaves it unresolved |
| Alerts.AlertsService.EvaluateAll | server/src/alerts/alerts.service.ts:93-102 | The counts it answers and the rows it leaves are those of the specification, in step with the candidates |
| Alerts.AlertsService.EvaluateEach | server/src/alerts/alerts.service.ts:94-100 | The nested loops |
| Alerts.AlertsService.RaiseOne | server/src/alerts/alerts.service.ts:104-119 | Answers whether it notified |
| Alerts.AlertsService.ResolveStale | server/src/alerts/alerts.service.ts:97-99 | Exactly the unresolved rows of the rule without a candidate are resolved and counted |
| Alerts.AlertsService.AcknowledgeEvent | server/src/alerts/alerts.service.ts:67-69 | Takes effect on open and muted events only, and then changes the status of that one |
| Alerts.AlertsService.ResolveEvent | server/src/alerts/alerts.service.ts:71-73 | Takes effect on unresolved events only, and then resolves that one at the date |
| Alerts.AlertsService.MuteRule | server/src/alerts/alerts.service.ts:57-65 | Refuses minutes out of range and unknown rules; else the rule is silent for that time |
| Cycles.BlockAtInvertsOffset | src/assistant-avatar/cycles.ts:104-128 | blockAt(offsetOf(i) + e) = (i, e) for 0 ≤ e < duration, in every turn, negative ones included |
| Cycles.BlockAtIsRight | src/assistant-avatar/cycles.ts:115-128 | At any date some block plays, and the date is its offset plus the elapsed time plus whole turns |
| Cycles.BlockAtIsPeriodic | src/assistant-avatar/cycles.ts:115-120 | A whole montage earlier or later the same block is at the same point |
| Cycles.WrappedIsMod | src/assistant-avatar/cycles.ts:118-120 | The wrapped date is the remainder that is never negative |
| Cycles.FindBlock | src/assistant-avatar/cycles.ts:115-128 | The loop finds it |
| Cycles.ComputeOffset | src/assistant-avatar/cycles.ts:104-108 | The loop adds up the durations before the index |
| Cycles.MoveIsAPermutation | src/assistant-avatar/cycles.ts:144-150 | A move keeps the blocks and the total duration, for every position, negative or out of range |
| Cycles.MoveLands | src/assistant-avatar/cycles.ts:144-150 | The block lands where asked within the list, the others keep their order, and moving it back undoes it |
| Cycles.SpliceBlock | src/assistant-avatar/cycles.ts:144-150 | The two splices |
| Cycles.UniqueName | src/assistant-avatar/cycles.ts:153-159 | A name not taken: the base, or the least free number, found within (number of cycles) + 1 |
| Cycles.NextCycleId | src/assistant-avatar/cycles.ts:162-167 | An id not taken, with the least free number, at most (number of cycles) + 1 |
| Cycles.DecimalIsInjective | src/assistant-avatar/cycles.ts:156-157 | Different numbers give different names |
| Cycles.ClampIsIdempotentIff | src/assistant-avatar/cycles.ts:67-72 | Exact condition: clamping twice changes nothing, for all durations, if and only if the floor of the state rounds down to a step or is out of reach |
| Cycles.ShippedFloorsAreSteady | src/assistant-avatar/cycles.ts:63-65 | All floors in use satisfy it |
| Cycles.WhateverIsStoredFits | src/assistant-avatar/cycles.ts:171-225 | Whatever is in storage, with any numbers as durations, only distinct, non-empty, bounded cycles of known states come out |
| Cycles.StoredCyclesAreReadBack | src/assistant-avatar/cycles.ts:187-225 | Round trip: what the editor holds is what a reload gives back |
| Cycles.ReadingIsStable | src/assistant-avatar/cycles.ts:205-225 | Storing what was read and reading it again changes nothing |
| Cycles.ReadCycles | src/assistant-avatar/cycles.ts:210-225 | The reading loop |
| Billing.SplittingCostsLittle | server/src/billing/pricing-resolver.service.ts:76-83 | Charging a usage in k parts exceeds the whole by 0 to k − 1 units |
| Billing.SplittingCanCostThatMuch | server/src/billing/pricing-resolver.service.ts:81-82 | And k − 1 is reached |
| Billing.ChargesAreCeilings | server/src/billing/pricing-resolver.service.ts:76-94 | Tokens in both directions are charged, rounded up once to whole units; credits are these units, the percentage of them rounded up, or none, by source |
| Billing.SplitSettlementCostsLittle | server/src/billing/pricing-resolver.service.ts:85-94 | With the overage rounding on top: what settling in parts can add, for every billing source |
| Billing.AuditIsWithinOne | server/src/admin/billing-reconciliation.service.ts:43-45 | At par the recorded cost ≤ the audited one ≤ the recorded one + 1, cap included |
| Billing.NoRateIsPar | server/src/billing/pricing-resolver.service.ts:96-108 | A snapshot whose exchange rate is missing, zero, negative or not a number is priced at par, so the bound holds for it |
| Billing.AuditAgreesIff | server/src/admin/billing-reconciliation.service.ts:43-48 | They agree, so that a correct record is not reported, if and only if no rounding is done twice below the cap |
| Billing.AuditCanDisagree | server/src/admin/billing-reconciliation.service.ts:46-48 | A correct record that the audit reports |
| Billing.AuditIgnoresTheRate | server/src/billing/pricing-resolver.service.ts:96-103 | Away from par the audit formula is only a bound, from one side |
| Billing.CostsAreCeilings | server/src/billing/pricing-resolver.service.ts:96-103 | The recorded cost is the total at the snapshot's rate, rounded up once and capped; the audited one is rounded up for each direction, and capped |
| Billing.LocalizingOvershootsLittle | server/src/billing/micros.ts:2-4 | Localizing a rounded and capped cost overshoots by at most the rate rounded up |
| Billing.LocalizingNeverFallsShortIff | server/src/billing/micros.ts:2-4 | It never falls below the direct cost if and only if the dollar cost was within the cap or the rate is at least par |
| Billing.LocalizingCanFallShort | server/src/billing/micros.ts:2-4 | A concrete case of falling short: half of the direct cost |
| Reconciliation.BuildJobLedgers | server/src/admin/billing-reconciliation.ts:9-19 | One ledger for each job mentioned and no other, with what its entries book |
| Reconciliation.OrderDoesNotMatter | server/src/admin/billing-reconciliation.ts:9-19 | Permuted entries give every job the same ledger |
| Reconciliation.LedgersConserve | server/src/admin/billing-reconciliation.ts:14-15 | For well-signed entries, spent − refunded over any different jobs is minus the sum of their amounts |
| Reconciliation.NoIssueIff | server/src/admin/billing-reconciliation.ts:21-44 | No issue if and only if the net charge is the expected one |
| Reconciliation.EachIssueMeans | server/src/admin/billing-reconciliation.ts:31-44 | REFUND_MISMATCH never comes alone, and tells of a refund other than what was spent beyond the price; MISSING_SPEND exactly when something was due and nothing spent; LEDGER_MISMATCH for any other wrong charge |
| Reconciliation.ReconcileJobLedger | server/src/admin/billing-reconciliation.ts:21-51 | The issues pushed are those of the specification, for a missing ledger too |
| Reconciliation.Report | server/src/admin/billing-reconciliation.service.ts:33-78 | The report has exactly the jobs with issues, each with its severity and codes, checked against its own ledger |
| Reconciliation.ReportIsComplete | server/src/admin/billing-reconciliation.service.ts:33-78 | The report lists every job with issues and no other, with all of them |
| Reconciliation.CriticalIff | server/src/admin/billing-reconciliation.service.ts:36-50 | A job is critical if and only if its ledger does not add up to the price of a job that succeeded, or to nothing for one that did not; the two other issues mean missing tokens and a differing cost |
| Reconciliation.HonestJobIsReportedIff | server/src/admin/billing-reconciliation.service.ts:39-49 | A chat job recorded by costMicros at par and charged right is reported if and only if its usage is missing or a rounding was done twice |

## Left out

- StorageMigration: one target for all batches; `purgePersonalAssets`, which deletes objects without touching rows, and the health and lifecycle calls are not modelled.
- StorageMigration.AssetsService.Select: any at most 100 pending rows may be chosen; the order by id and the `limit` argument are not modelled.
- StorageMigration.AssetsService.ReadSource: a read is one atomic step; a read torn by a concurrent writer is not modelled, nor are access checks.
- StorageMigration.AssetsService.Store: object keys are fresh.
- ImageWorker: the model, image decoding, authentication and the removal of old results at start-up are left out, as is the server cancelling a handler while its thread runs.
- The gateway worker workers/comfyui-gateway/app.py is not modelled: it does not look at the cache again under the lock and awaits while holding the registry lock.
- AgentApproval.AgentTasksService.ReviewToolCall: events, messages and the rows of steps are left out; no worker picks up the resume job within the round, so not before `failEnqueue` either.
- AgentRun: one worker at a time; a cancel followed by an immediate retry while an old worker lives is not modelled, nor the deduplication of a second resume key in one iteration.
- AgentRun.AgentTasksProcessor.Process: planner text, tool results, messages, step and event rows are left out; deadlines appear as throws and as the `late` flag of a reservation.
- RawCopy.ToRaw: the native structured clone, the JSON fallback, sparse arrays, the depth of the stack and the contents of Map, Set and Date objects are left out; a proxy stands for a raw object directly.
- RawCopy.SetPrototype: accessors and read-only properties that an exotic object or a function brings along as a prototype, and the prototype null, have no effect here on the assignments that follow; the key itself is lost either way.
- EventStream.StreamApiEvents: byte decoding, the idle timeout, the HTTP status and exceptions thrown by callbacks are left out; `JSON.parse` is any partial function.
- EventStream.StreamIsReadBack: the writer is the format of section 9.2.6 with one `id`, `event` and `data` line each; lone CR and `retry` are not recognised by the reader.
- AvatarEngine: drawing (`sample` after the composed pose), `toPoints` and `radiusAtAngle`, trigonometry, SVG paths, the pose tables, blinking and idle life are left out.
- AvatarEngine.BotEngine.SetLook: a duration of 0 is excluded, since the code would divide by it; the sum of finite components is taken as finite.
- AvatarEngine.BotEngine.SetExpression: like the shape it restarts from the previous target; no continuity is claimed, and the eye offset table is not modelled.
- EyeFit.Resous: footprints of the eyes, the norm of the shift to the centre and the six-digit rounding of the result are left out; margins are finite.
- EyeFit.Approche: works with squared distances; the normalised direction and the support function of the ellipse are left out.
- LoginBackoff.AuthService.LoginAdmin: attempts are atomic, dates are after 1970 and do not go back; two to a fractional power is any factor from 1 to below 2, and whether a fractional `take` is refused or cut is a parameter; IP throttling, sessions and the other login methods are left out.
- Alerts: the queries that produce the candidates, notifications, web hooks and the concurrency of two evaluations are left out.
- Alerts.AlertsService.EvaluateAll: all dates read in one evaluation are one date.
- Cycles: numbers are exact, so the rounding of binary fractions is not modelled; floors of states are whole hundredths; editing beyond moving, `defaultCycle` and the translation of names are left out.
- Billing: fractional rates in the audit and amounts beyond the safe integer range are left out, as is the price snapshot with its markups.
- Reconciliation.Report: the query window, its limit of 10000 jobs and the texts of the issues are left out.
- Vue components, stores, routing, controllers, web search, e-mail and third-party sign-in would only add easy members.
