# Verified model of the lease-fenced task engine

gotasks runs background tasks out of a shared store.  Any number of processes
claim tasks under a lease, run them, and write the outcome back, fenced by the
lease token of the claim; a task whose lease has run out may be claimed again
while attempts remain, or is reaped when none do.  This project models that
engine and proves what it promises, for every run rather than for sampled ones.

The layers share one task datatype (`Tasks.dfy`):

* **One document** (`Lifecycle.dfy`): what a claim, a finalize, an extension, a
  requeue and a reap do to a task, and what every task in the store satisfies.
* **The Mongo store** (`MongoDocs.dfy`, `FinalizeBatch.dfy`, `Enqueue.dfy`): the
  filter and update documents it sends, a small semantics for them, and the
  proof that they mean the transitions above; the unordered bulk finalize; the
  chunked enqueue and the manager's count of it.
* **The cluster** (`Cluster*.dfy`; `ClusterSteps.dfy` says what each step does): processes, claims in one round trip or in
  three, handshakes, heartbeats, finalize writes that land without an answer,
  crashes, deletes, requeues and reaps as a state machine whose steps interleave
  in any order.  One step is one atomic access to one document or one local move
  of a process: a landing, its answer and what the worker does with the answer
  are three steps.  History variables record claims, requeues and executions.
* **The in-memory store** (`Strings.dfy`, `MemSpec.dfy`, `NegativeLease.dfy`, `MemStore.dfy`): a class
  with mutable task records, each method proved to do what a function on plain
  values says; `Simulation.dfy`, which relates that function to the Mongo
  transitions operation by operation; and `SimulationDocs.dfy`, which runs it
  against the filter and update documents and shows that both stores answer
  alike in every run.
* **One pipelined manager** (`FinalizeBuffer.dfy`, `Pipeline*.dfy`): fetcher,
  workers and flusher as program counters over the task channel, the two wake-up
  channels and the finalize buffer.  `FinalizeInTime.dfy` ties its timer to the
  cluster: what waits in the buffer is still applied.
* **The watch timer** (`TimerHeap.dfy`): the bounded heap of future run_ats.

Assumptions:

* A write or read of one Mongo document is atomic; the unique index rejects an
  insert whose key a stored document carries; minted ids and lease tokens are
  fresh.
* A clock sample handed to the store is never later than the moment its write
  lands.  Leases are not negative.
* Tasks enter as the manager builds them (`Enqueue.EnqueueMany` proves it does):
  pending, no attempts, no result, at least one attempt allowed.
* Handlers do not change the task they are given, other than through the
  manager's own ExtendLease.

Where code and documentation differ the code is modelled.

* The interface says a requeue clears the retention expiry (`store.go:179-182`);
  the store leaves it alone, and so does `Lifecycle.Requeued`
  (`Lifecycle.RequeueIsSound` says so).
* The interface asks for a partial-failure report when only some of a batch goes
  in; the in-memory store reports a lone duplicate and keeps what it had
  inserted.  `MemSpec.EnqueueIsAllOrNothing` says exactly when that happens.
* The finalize gate takes the worker's copy of the lease deadline to err only on
  the early side (`worker.go:118-122`).  `ClusterCopies.BehindIffCovered` says
  exactly in which runs it does: those in which no extension lands that sets an
  earlier deadline than some copy of the claim has or is about to be told.
  `ClusterCopies.LateExtensionOvertakes` is a run in which one does: a heartbeat
  that read the clock at instant 1 lands after the handler has taken over the
  extension it asked for at instant 5.
* The start-of-work handshake is meant to keep a task from being worked on after
  its lease (`fetcher.go:96-123`).  `ClusterCopies.InvokedHeldIff` says exactly up
  to which instant a cleared task is sure to be held when its handler is invoked:
  the deadline in the store; `ClusterCopies.InvokedTooLate` is a run that
  oversteps it, for every number of attempts.

## Model

| member | source | states |
|---|---|---|
| Lifecycle.ClaimIsSound | stores/mongostore/mongostore.go:361-390 | a claim of a runnable task keeps it within its attempts budget and its error log in order, and uses up termination measure |
| Lifecycle.FinalizeIsSound | stores/mongostore/mongostore.go:493-551 | so does the write of an outcome whose verdict agrees with the task |
| Lifecycle.ReapIsSound | stores/mongostore/mongostore.go:656-686 | so does a reap, whose error entry closes the budget |
| Lifecycle.RequeueIsSound | stores/mongostore/mongostore.go:615-625 | a requeue of a dead task gives back the whole budget, starts a new error epoch and leaves the expiry as it was |
| Lifecycle.UnfinishedIsClaimableOrReapable | stores/mongostore/mongostore.go:358-371 | an unfinished task is, from its run_at or lease on, exactly one of claimable and reapable, and before that neither |
| Lifecycle.TransitionsKeepTheirWord | stores/mongostore/mongostore.go:379-686 | field by field: a claim counts the attempt, names worker and token and may not be overtaken or reaped before its lease is over; a failure is logged and may be taken again from its retry time on and not before, keeping its key, or if terminal never, giving it up; a success keeps the handler's result; an extension moves the deadline only; a requeued task is due at once with all its attempts; a reap logs who had it last; id, queue, type, payload, budget and expiry never change |
| MongoDocs.EncodeRoundTrip | stores/mongostore/mongostore.go:172-190 | a task as the manager makes it survives storage; the key field exists exactly when there is a key |
| MongoDocs.RunnableFilterMeans | stores/mongostore/mongostore.go:361-377 | the claim filter matches exactly the runnable tasks of the wanted types and queues; without those names, the runnable ones |
| MongoDocs.FencesMean | stores/mongostore/mongostore.go:484-662 | the lease, dead and reap filters match exactly the held, dead and reapable tasks |
| MongoDocs.UpdatesMean | stores/mongostore/mongostore.go:379-686 | every update document turns a stored task into what the transition says, and keeps the document well formed |
| MongoDocs.FinalizeWriteMeans | stores/mongostore/mongostore.go:514-567 | Complete and Fail change the one task that is running under the outcome's token, or nothing |
| MongoDocs.MatchedCountMeans | stores/mongostore/mongostore.go:519-528 | the matched count is 1 exactly when the lease is still held, else 0 |
| MongoDocs.ClaimWriteMeans | stores/mongostore/mongostore.go:446-453 | the guarded batch update claims exactly the candidates that are still runnable |
| MongoDocs.ClaimOneWriteMeans | stores/mongostore/mongostore.go:394-413 | the single claim's filter finds exactly the runnable tasks of the wanted types and queues, and its update claims the one that was picked |
| MongoDocs.ExtendWriteMeans | stores/mongostore/mongostore.go:597-613 | the extension moves the deadline of the held task and nothing else |
| MongoDocs.RequeueWritesMean | stores/mongostore/mongostore.go:627-654 | one requeue and the sweep match and reset exactly the dead tasks they are about |
| MongoDocs.ReapWriteMeans | stores/mongostore/mongostore.go:656-686 | the reaper's two-stage pipeline buries exactly the reapable tasks, each with its own attempts and worker in the entry |
| MongoDocs.FinalizeWriteSays | stores/mongostore/mongostore.go:484-567 | in the documents' own fields: the one that is running under the outcome's id and token becomes what the outcome says, with the retry time, result and error it carries; every other document stays |
| MongoDocs.ExtendWriteSays | stores/mongostore/mongostore.go:597-613 | likewise: only the deadline of the document under the claim moves |
| MongoDocs.ClaimWriteSays | stores/mongostore/mongostore.go:361-453 | likewise: due documents, or stale ones with attempts left, of the wanted types and queues are found, and of the candidates those still due are claimed |
| MongoDocs.RequeueWritesSay | stores/mongostore/mongostore.go:615-654 | likewise: the dead document named, or all dead ones of the type, start again |
| MongoDocs.ReapWriteSays | stores/mongostore/mongostore.go:656-686 | likewise: stale documents without attempts are buried under their own last worker and attempt |
| FinalizeBatch.BatchSettles | stores/mongostore/mongostore.go:571-595 | for pairwise distinct claims the batch applies exactly the entries that match at the start, each with its own result, error and retry time; all other tasks stay |
| FinalizeBatch.OrderDoesNotMatter | stores/mongostore/mongostore.go:571-595 | every permutation of the entries leaves the same store and matches the same number |
| FinalizeBatch.Run | stores/mongostore/mongostore.go:571-595 | whatever order the server serves, the result is the settled one and lost = entries - matches |
| Enqueue.StoreEnqueue | stores/mongostore/mongostore.go:264-356 | a payload that does not convert refuses the whole call; else for every chunk size and every reply per chunk: no error if and only if every chunk went in whole; a duplicate error, with the key and the holder the lookup found, if and only if a lone task was reported duplicate; else ids keep the input's length, are blank exactly where one failure names the index, and the failures and their causes are exactly what the replies say, unknown from the first broken chunk on |
| Enqueue.RepliesAre | stores/mongostore/mongostore.go:300-321 | a chunk may be taken whole, lose any entries to one error each, or break |
| Enqueue.InsertChunks | stores/mongostore/mongostore.go:293-329 | the account after the last chunk, and that its failures and causes are the server's |
| Enqueue.Reject | stores/mongostore/mongostore.go:306-321 | per-entry failures of one chunk are named under the cause the server gave, duplicates as such; the rest of the chunk is in |
| Enqueue.FailRest | stores/mongostore/mongostore.go:293-299 | after a hard error every remaining entry is blank and named once, cause unknown |
| Enqueue.BlanksAreFailures | manager.go:334-347 | the ids that are not blank number the inputs less the failures |
| Enqueue.EnqueueMany | manager.go:267-366 | a call is refused exactly when its type, queue, registration, policies, attempts, key or a payload give grounds to, and for one of those; every task handed on is fresh and carries its payload; its run_at, expiry, timestamps and max attempts are those the policies say; the error is the one the store's replies call for; the enqueued count is inputs less failures |
| Enqueue.SettingsSay | manager.go:281-298 | the innermost max-attempts setting that is not zero counts; without a task policy its fields are zero |
| Enqueue.PayloadsSay | manager.go:353-366 | an object goes through as it is, null and nothing as nothing, no other value goes through |
| Strings.DecimalIsInjective | stores/memstore/memstore.go:142 | two numbers with the same decimal form are equal |
| Strings.DecimalSays | stores/memstore/memstore.go:142 | a number's decimal form is digits only, without leading zeros, and reads back as the number |
| Strings.IdsAreInjective | stores/memstore/memstore.go:142-174 | distinct counters mint distinct ids and distinct tokens, and no token is empty |
| Strings.LexLessIsTotal | stores/memstore/memstore.go:166 | the order on ids is total and antisymmetric |
| Strings.LexLessIsTransitive | stores/memstore/memstore.go:166 | and transitive |
| Strings.LexLessSays | stores/memstore/memstore.go:166 | one id is less than another exactly if it is a proper prefix or has the smaller character where they first differ |
| MemSpec.FirstIsFirst | stores/memstore/memstore.go:152-172 | there is at most one first task in (run_at, id) order, and one whenever any may be taken |
| MemSpec.RoundsTakeTheFirst | stores/memstore/memstore.go:193-209 | k claims in a row take the first wanted task, then the first of the rest, and so on; each is bumped once under a token of its own and nothing else changes |
| MemSpec.FirstOfTakesTheEarliest | stores/memstore/memstore.go:193-209 | so exactly min(k, n) distinct tasks are taken and each is earlier than every wanted one that is left |
| MemSpec.ClaimOneSays | stores/memstore/memstore.go:152-181 | in the tasks' fields: nothing is claimed exactly when nothing may be taken; else the task with the oldest run_at, of two alike the one whose id comes first as a string, is claimed under the next token |
| MemSpec.BatchSays | stores/memstore/memstore.go:193-209 | in the tasks' fields: a batch takes up to k of those, all if there are fewer, in that order, each under the next token; all others stay |
| NegativeLease.BatchIsDistinctIff | stores/memstore/memstore.go:152-209 | a batch of k takes no task twice if and only if the lease is not negative or the first k - 1 wanted tasks are on their last attempt |
| NegativeLease.NegativeLeaseClaimsTwice | stores/memstore/memstore.go:161-178 | a lone task with attempts to spare is taken twice under a negative lease |
| MemSpec.InsertKeepsMinted | stores/memstore/memstore.go:141-145 | an insert takes an id no task has, and the ids to come are unused after it |
| MemSpec.AllGetIn | stores/memstore/memstore.go:131-148 | an enqueue inserts everything if and only if no key clashes with an active task or an earlier entry |
| MemSpec.EnqueueIsAllOrNothing | stores/memstore/memstore.go:131-148 | an enqueue is all or nothing if and only if its first task conflicts or nothing does |
| MemSpec.EnqueueCanStopHalfway | stores/memstore/memstore.go:135-146 | two tasks with one key: the first stays in though the call fails |
| MemSpec.EnqueuePuts | stores/memstore/memstore.go:131-148 | the tasks counted as inserted are in as they came, but for the id; ids are numbered in order |
| MemSpec.EnqueueKeeps | stores/memstore/memstore.go:131-148 | stored tasks stay as they are |
| MemSpec.EnqueueAddsOnly | stores/memstore/memstore.go:131-148 | nothing else gets in |
| MemSpec.EnqueueStops | stores/memstore/memstore.go:131-148 | an enqueue that stops short does so at a task whose key an unfinished one has |
| MemSpec.MemTransitionsKeepTheirWord | stores/memstore/memstore.go:219-336 | the in-memory updates keep the same promises field by field, but that a success overwrites the result also with an empty one |
| MemSpec.FinalizeAllSays | stores/memstore/memstore.go:253-269 | each outcome of a batch is applied in its turn exactly if its task is then running under its token, and else counted lost |
| MemSpec.SweepsSay | stores/memstore/memstore.go:305-336 | the sweeps restart exactly the dead tasks of the type and bury exactly the stale ones without attempts |
| MemStore.TaskRecord.Clone | stores/memstore/memstore.go:112-118 | a clone has the same value and shares no slice with the original |
| MemStore.Store.Task | stores/memstore/memstore.go:62-69 | returns an unshared copy of the task, or nil when there is none |
| MemStore.Store.ActiveKeyHolder | stores/memstore/memstore.go:122-129 | finds an unfinished task with the key exactly when there is one |
| MemStore.Store.Best | stores/memstore/memstore.go:152-172 | the scan ends on the first task in (run_at, id) order, whatever order the map is visited in |
| MemStore.Store.ClaimOneLocked | stores/memstore/memstore.go:152-181 | the store's new state and the returned copy are those of one claim |
| MemStore.Store.Claim | stores/memstore/memstore.go:183-191 | likewise; nothing comes back exactly when no task may be taken, and else the first in (run_at, id) order |
| MemStore.Store.ClaimBatch | stores/memstore/memstore.go:193-209 | state and copies are those of at most k claims in a row by one clock reading; the copies are fresh |
| MemStore.Store.HeldTask | stores/memstore/memstore.go:211-217 | finds the task exactly when it is running under the token |
| MemStore.Store.Complete | stores/memstore/memstore.go:219-231 | applies the success if and only if the task is running under the token, and says so; the task is done with the result, no other task changes |
| MemStore.Store.Fail | stores/memstore/memstore.go:233-251 | applies the failure if and only if the task is running under the token, and says so; the task is pending until the retry time, or dead if terminal, with the error logged; no other task changes |
| MemStore.Store.FinalizeBatch | stores/memstore/memstore.go:253-269 | applies the outcomes one after the other and counts those that came too late |
| MemStore.Store.ExtendLease | stores/memstore/memstore.go:271-283 | moves the deadline of a held task and returns it, else changes nothing |
| MemStore.Store.Requeue | stores/memstore/memstore.go:294-303 | resets the task if it is there and dead, else changes nothing |
| MemStore.Store.RequeueDead | stores/memstore/memstore.go:305-317 | resets every dead task of the type and returns how many |
| MemStore.Store.ReapExpired | stores/memstore/memstore.go:319-336 | buries every reapable task and returns how many |
| MemStore.Store.Enqueue | stores/memstore/memstore.go:131-148 | inserts copies in order under fresh ids up to the first conflict, and names the holder on one |
| Simulation.WritesAreSeen | stores/memstore/memstore.go:219-303 | what a client sees of a settlement, an extension and a requeue: the verdict or deadline it is told, and the one task that changes |
| Simulation.SweepsAndClaimsAreSeen | stores/memstore/memstore.go:183-336 | likewise of sweeps and claims: the count or the tasks it is told, and what becomes of them |
| Simulation.HoldsAgree | stores/mongostore/mongostore.go:484-490 | a claim is live in both stores or in neither |
| Simulation.ConflictAgrees | stores/mongostore/mongostore.go:157-163 | the scan for an active holder and the unique index turn away the same keys, and the lookups after it find the same tasks |
| Simulation.EnqueueAgrees | stores/memstore/memstore.go:131-148 | on the manager's batches both stores insert the same tasks |
| Simulation.ClaimAgrees | stores/memstore/memstore.go:193-209 | what the in-memory store claims is a choice Mongo may make, sorted or unsorted, and the stores stay related |
| Simulation.SettleBatchAgrees | stores/memstore/memstore.go:253-269 | both stores apply the same outcomes of a batch and lose the same number |
| Simulation.StepAgrees | stores/memstore/memstore.go:131-336 | every operation gets the same answer from both stores and keeps them related |
| SimulationDocs.InsertsMean | stores/mongostore/mongostore.go:264-321 | an unordered insert of documents under the partial unique index inserts the tasks whose keys are free |
| SimulationDocs.ServerMeans | stores/mongostore/mongostore.go:264-686 | on a well-formed collection every operation's documents do to the tasks what the transitions say, are answered as they say, and keep it well formed |
| SimulationDocs.StoresAgree | stores/memstore/memstore.go:131-336 | from empty stores any sequence of operations, on Mongo's side filters and updates run on a collection, gets the same answers, and both hold the same tasks up to tokens, updated_at and the deadline of a finished lease |
| SimulationDocs.RunsGoOn | store.go:48-99 | a sequence of operations may go on with any batch as the manager makes it, any claim under a lease that is not negative, and any settlement or extension of a claim that was handed out |
| SimulationDocs.EachAnswerIsTheSame | stores/memstore/memstore.go:131-336 | that is: after any operations the next one is answered alike by a choice Mongo may make |
| SimulationDocs.FindsSay | stores/mongostore/mongostore.go:394-444 | a choice Mongo may make is of due documents of the wanted types and queues, as many as there are up to the limit; under the sort no document left out comes before one taken |
| ClusterInvariant.StepKeepsInv | stores/mongostore/mongostore.go:358-490 | every step of the cluster keeps the inductive invariant |
| ClusterGuarantees.TasksEvolve | stores/mongostore/mongostore.go:361-686 | a step changes a task only by a claim of a runnable task, the write or renewal of the claim that holds it, a requeue, a reap or a delete |
| ClusterSteps.ClaimingSays | stores/mongostore/mongostore.go:394-453 | a single claim is of a due task and claims it; a batch update claims the candidate if it is still due by the claimer's clock and else changes nothing |
| ClusterSteps.WritingSays | stores/mongostore/mongostore.go:484-567 | a worker's write settles its task as it reports if that is still running under its token, and else changes nothing |
| ClusterSteps.ExtendingSays | stores/mongostore/mongostore.go:597-613 | an extension moves the deadline of the task under the claim, or changes nothing |
| ClusterSteps.RequeueingSays | stores/mongostore/mongostore.go:627-637 | a requeue restarts a dead task |
| ClusterSteps.ReapingSays | stores/mongostore/mongostore.go:656-686 | a reap buries a stale task without attempts |
| ClusterSteps.ComingAndGoingSays | stores/mongostore/mongostore.go:148-156 | a task goes in as it came, a delete takes one out, and no other step touches the collection |
| ClusterSteps.HistorySays | stores/mongostore/mongostore.go:615-625 | an epoch is opened by a requeue and nothing else; budgets never change |
| ClusterSteps.NothingIsRuledOut | chaos_test.go:8-11 | crashes, deletes, requeues, late extensions and stale writes are possible whenever they could be, claims and reaps exactly on the tasks they are for |
| ClusterSteps.CallsGoThrough | stores/mongostore/mongostore.go:415-479 | a fresh task goes in whenever its id and key are free; the round trips of a batch call are possible whatever has become of its candidates, and it may break off between any two |
| ClusterSteps.CrashSays | chaos_test.go:8-11 | a crash takes the calls and tasks of one process, and nothing of the store or of others |
| ClusterSteps.ClaimHandsOver | stores/mongostore/mongostore.go:394-413 | a single claim hands over the task as its update left it, or its answer is lost |
| ClusterSteps.FindingSays | stores/mongostore/mongostore.go:421-446 | a batch call finds due tasks of the wanted types and queues and mints one unused token for them |
| ClusterSteps.UpdatingSays | stores/mongostore/mongostore.go:446-459 | it updates each candidate once |
| ClusterSteps.ReadingSays | stores/mongostore/mongostore.go:460-479 | it reads each candidate once and hands over those under its token |
| ClusterBatch.BatchGetsWhatItFinds | stores/mongostore/mongostore.go:415-479 | in every world, a batch call that nobody disturbs claims any choice of due, wanted tasks within the limit once each, leaves every other task alone, and hands over all of them as they are stored |
| ClusterSteps.BeginningSays | fetcher.go:96-101 | a single task is executed at once; a pipelined one goes to the handshake if its queue lease has not run out, and else is dropped |
| ClusterSteps.HandshakeSays | fetcher.go:102-123 | the handshake clears the task with the deadline it was granted, drops it if the claim was lost, and is tried twice; the invocation is an execution |
| ClusterSteps.HandlerSays | manager.go:465-475 | a handler's own extension is granted while the claim is held, and its copy takes the deadline over |
| ClusterGuarantees.ExecutedAtMostOnce | worker.go:26-116 | no (task, requeue epoch, attempt) is executed twice |
| ClusterGuarantees.AttemptsBoundExecutions | chaos_test.go:8-11 | executions <= claims <= (requeues + 1) * max attempts; a never-requeued one-attempt task runs at most once |
| ClusterGuarantees.ExecutionsAreCounted | chaos_test.go:8-11 | executions of a task are the ledger entries that name it |
| ClusterGuarantees.DoneWasExecuted | chaos_test.go:8-11 | a done task's current attempt is in the execution ledger |
| ClusterGuarantees.NothingIsLost | stores/mongostore/mongostore.go:148-156 | only a delete or the purge takes a task away |
| ClusterProgress.TurnsFinish | chaos_test.go:8-11 | counting claims, finalizes and reaps of a task once and a take-over of a running one twice: a task that is neither deleted nor requeued has at most its measure of them left (twice its unused attempts, plus one if running), and is unfinished exactly as long as it has had fewer and has not succeeded, whatever else runs or crashes |
| ClusterProgress.CanAlwaysFinish | chaos_test.go:8-11 | from every world that keeps the invariant, so from every reachable one, the clock, claims that come to nothing and the reaper alone bring a task to done or dead |
| ClusterGuarantees.BudgetAndErrorLog | worker.go:85-100 | attempts stay in budget, pending means one is left, dead means none is; errors since the last requeue rise in attempt and a dead task's last is the final attempt |
| ClusterGuarantees.HeldSnapshotAgrees | worker.go:85-100 | while a worker's token matches, its snapshot is the stored task but for the deadline |
| ClusterSteps.ReportsAre | worker.go:82-110 | a worker may report any result and any error, by any worker and message, under the attempt it was handed and with the verdict its copy of the budget gives; and nothing else |
| ClusterSteps.ResultsAreStored | worker.go:82-150 | in every world, a handler that ends while its claim is held can finish and write, and the task is done with that very result |
| ClusterSteps.ErrorsAreStored | worker.go:82-150 | likewise its error is the last entry on the log, with that time, worker, message and attempt; the task is pending until the retry time if attempts are left, else dead |
| ClusterGuarantees.ErrorsAreKept | stores/mongostore/mongostore.go:530-551 | in no run does an error entry disappear or change, also not over a requeue |
| ClusterGuarantees.EveryMoveCounts | stores/mongostore/mongostore.go:361-390 | every change of status or attempts but a requeue uses up measure |
| ClusterGuarantees.MovesAreBounded | stores/mongostore/mongostore.go:361-390 | between requeues a task makes at most 2 * max attempts transitions |
| ClusterGuarantees.UnfinishedTasksStayReachable | stores/mongostore/mongostore.go:656-660 | an unfinished task has an enabled claim or reap, never both, exactly from its run_at or lease on |
| ClusterGuarantees.SingleOwner | stores/mongostore/mongostore.go:481-490 | at most one outstanding snapshot of a task matches the store's token |
| ClusterGuarantees.LosesClaimOnlyTo | stores/mongostore/mongostore.go:481-490 | a claim ends only by its own finalize, a delete, or a claim or reap strictly after its deadline |
| ClusterGuarantees.NeverHeldAgain | stores/mongostore/mongostore.go:481-490 | a token that has stopped matching never matches again |
| ClusterGuarantees.StaleForever | stores/mongostore/mongostore.go:514-613 | once a claim is lost, no Complete, Fail or ExtendLease of its worker changes the store, however the run goes on |
| ClusterOwnership.ClaimsRecordTheUpdate | stores/mongostore/mongostore.go:446-455 | a claim on record is the task as it was when the update hit and as the update left it, and it was runnable then |
| ClusterOwnership.GuardNeedsNoFilter | stores/mongostore/mongostore.go:450-452 | the batch guard matches the wanted types and queues although it does not ask for them, and candidates never outnumber the batch |
| ClusterOwnership.ClaimedTasksAreExact | stores/mongostore/mongostore.go:415-479 | a task a claimer got was runnable and wanted when its update hit, is exactly as that update left it, and is held by nobody else |
| ClusterOwnership.DeliveredOnce | stores/mongostore/mongostore.go:460-479 | a claim that reached one claimer never reaches another |
| ClusterOwnership.WorkStartsCleared | fetcher.go:79-123 | in every run an execution starts with a singly claimed task, or with a pipelined one for which an extension landed earlier that found the claim held, and whose deadline the worker's copy has |
| ClusterHeartbeat.LastsToItsDeadline | stores/mongostore/mongostore.go:358-371 | a claim that nobody finalizes, deletes or sets back is held in every run up to an instant if and only if that instant is not past its deadline |
| ClusterCopies.InvokedHeldIff | fetcher.go:79-123 | a cleared task is held whenever its handler is invoked up to an instant if and only if that instant is not past the deadline in the store, on the last attempt too |
| ClusterCopies.CopyIsEnough | fetcher.go:79-123 | while copies are behind, up to the copy's own deadline it is held |
| ClusterCopies.InvokedTooLate | fetcher.go:79-123 | for every number of attempts a reachable world with a cleared task, and a run from it to an invocation after the claim is lost |
| ClusterHeartbeat.HeartbeatKeepsTheTask | worker.go:229-271 | while extensions land at most a lease apart, no claim or reap takes the task |
| ClusterHeartbeat.HeartbeatSurvivesIffInTime | worker.go:229-271 | over all runs on a heartbeat's schedule the claim survives if and only if start delay + landing latency + (failures + 1) * interval <= lease |
| ClusterHeartbeat.AutoCadence | worker.go:238-243 | at a third of the lease one failed tick is outlived if and only if delay and latency fit into what two ticks leave; two in a row if and only if they are no more than the rounding of lease / 3 |
| ClusterHeartbeat.LateLoses | worker.go:244-262 | a late heartbeat has a run in which the claim is lost though the schedule is kept |
| ClusterCopies.BehindIffCovered | worker.go:118-128 | no worker's copy of the deadline is ever ahead of the store while the claim is held, if and only if every extension that lands for it sets no earlier deadline than any copy has or is about to be told |
| ClusterCopies.CopyNeverAhead | worker.go:118-128 | so it is when extensions land in the order of the deadlines they set |
| ClusterCopies.LateExtensionOvertakes | worker.go:118-128 | a reachable world where a heartbeat's extension, older than the one its handler has taken over, lands late and leaves the copy ahead of the store |
| ClusterOwnership.ScanAgreesWithIndex | stores/mongostore/mongostore.go:157-163 | at most one document carries a key, none that is finished does, so scan and index agree |
| ClusterOwnership.KeysAreOnlyReleased | stores/mongostore/mongostore.go:615-625 | a key once given up is never taken back, also not by a requeue |
| FinalizeBuffer.AppendIsTruthful | worker.go:154-164 | finOldest and finMinLease are the first entry's time and the least lease after every append |
| FinalizeBuffer.DeadlineLeavesMargin | worker.go:173-188 | the flush deadline leaves half a margin of every lease as the worker knows it, and three quarters of those appended as they passed the gate |
| FinalizeBuffer.FinBuffer.BufferOutcome | worker.go:154-169 | the buffer grows by the outcome and its book-keeping stays true |
| FinalizeBuffer.FinBuffer.Look | worker.go:176-185 | the flusher sees the size and, if anything waits, the deadline |
| FinalizeBuffer.FinBuffer.Take | worker.go:205-209 | a flush takes everything there is |
| Pipeline.StepKeepsInv | fetcher.go:13-95 | every step of a pipelined manager keeps its invariant |
| PipelineGuarantees.EverythingIsReached | manager.go:511-585 | a manager starts with every goroutine at the top of its loop, and every enabled step leads on from every reached state |
| PipelineGuarantees.RunKeepsInv | fetcher.go:13-95 | and so does every run |
| PipelineGuarantees.SendsNeverBlock | fetcher.go:25-56 | the fetcher asks for at least one task and no more than fit, and its sends never block |
| PipelineGuarantees.NeverStranded | fetcher.go:25-36 | a fetcher parked on fetchNudge has a nudge there or coming, or the channel holds more tasks than there are workers |
| PipelineGuarantees.InExactlyOnePlace | fetcher.go:79-123 | every claimed task is in exactly one of tail, channel, worker, dropped, buffer, bulk write or written |
| PipelineSteps.DroppedOnlyWhenLost | fetcher.go:96-123 | a worker leaves a task to its lease only if its queue lease had run out, the store said it was lost, or two tries got no answer |
| PipelineSteps.CheckedTaskGoesOn | fetcher.go:96-101 | a checked task goes on to the handshake exactly if its queue lease has not run out |
| PipelineSteps.HandshakeDecides | fetcher.go:102-123 | a granted handshake always leads to work under the deadline granted, a lost one never, one without answer is tried once more |
| PipelineSteps.WorkIsGranted | fetcher.go:79-123 | and no worker starts to work otherwise |
| PipelineSteps.WorkerTakesInOrder | fetcher.go:79-95 | workers take the oldest task in the channel and nudge the fetcher |
| PipelineSteps.OutcomeIsBufferedIff | worker.go:118-128 | an outcome is buffered exactly if batching is on, the task is not at-most-once and its lease has four flush intervals and two seconds left; else it is written at once |
| PipelineSteps.OutcomeGoesOut | worker.go:130-169 | a buffered outcome is appended once and the flusher woken; a written one is written once |
| PipelineSteps.FetcherAsks | fetcher.go:25-38 | the fetcher parks exactly if less than half a batch fits into the channel, and else asks for a batch or what fits |
| PipelineSteps.FetcherSends | fetcher.go:40-76 | what a claim brings is sent in order, all of it |
| PipelineSteps.SettingsAre | manager.go:168-196 | a pipelined manager starts with any worker count, a claim batch of 1 to 100, and for batched finalizes a batch of 2 to 1000 and a positive interval |
| PipelineSteps.MarginIs | manager.go:516-518 | the margin is the larger of four flush intervals and two seconds |
| PipelineSteps.DeadlineIsExact | worker.go:178-184 | the flush deadline has passed exactly if the oldest entry is an interval old or some lease has half a margin left |
| PipelineSteps.FlusherLooks | worker.go:173-203 | the flusher flushes exactly when a batch is full or the deadline has passed, and else blocks with its timer at that deadline |
| PipelineSteps.FlusherFlushes | worker.go:187-227 | a flush takes the whole buffer; wake-up, timer and the end of the workers set the next look off, the last for good |
| PipelineSteps.StoreMayDoAnything | fetcher.go:40-76 | a claim may bring any new tasks up to as many as asked for, or fail; the fetcher may be cut off anywhere once the manager is cancelled |
| PipelineSteps.WorkersAndFlusherMove | fetcher.go:79-123 | the store may answer a handshake in any way; workers and flusher wait for nothing but what their loops wait for |
| PipelineGuarantees.NoLostWakeUp | worker.go:173-203 | a blocked flusher has seen the whole buffer and its timer is the deadline, or a wake-up is pending or about to be sent |
| PipelineGuarantees.FinalizeConserves | worker.go:118-227 | the appended outcomes are the flushed batches in order plus the buffer, and none is of a one-attempt task |
| PipelineGuarantees.DrainIsComplete | manager.go:577-585 | when the flusher has returned the buffer is empty, the workers are gone and every claim is accounted for |
| PipelineGuarantees.FlushesInTime | worker.go:173-203 | the timer of an up-to-date blocked flusher keeps the margins |
| FinalizeInTime.BufferedOutcomeIsApplied | worker.go:118-227 | an outcome in the buffer of an up-to-date blocked flusher, held then, is applied if its write lands within half a margin of the timer, whatever else runs, provided no extension undercuts a copy's deadline |
| PipelineStop.StopWindsDown | manager.go:627-646 | after cancellation every move brings the end nearer |
| PipelineStop.StopNeverStalls | manager.go:627-646 | and some goroutine can move until all have ended |
| PipelineStop.StopTerminates | manager.go:627-646 | so no run after cancellation makes more than a bounded number of moves |
| TimerHeap.RootIsLeast | stores/mongostore/watch.go:192-193 | the root of the heap is its least deadline |
| TimerHeap.Up | stores/mongostore/watch.go:187 | sifting up restores heap order and keeps the entries |
| TimerHeap.Down | stores/mongostore/watch.go:193 | sifting down restores heap order and keeps the entries |
| TimerHeap.TimerLoop.Push | stores/mongostore/watch.go:184-187 | one entry more, still a heap, never above the limit |
| TimerHeap.TimerLoop.Pop | stores/mongostore/watch.go:192-194 | the least entry leaves and is booked as popped |
| TimerHeap.TimerLoop.Rearm | stores/mongostore/watch.go:166-178 | the timer is set to the least deadline, a millisecond ahead at the earliest, or to idle |
| TimerHeap.TimerLoop.OnFuture | stores/mongostore/watch.go:162-188 | below 4096 a deadline is stored and the timer set, else it is dropped and the timer kept |
| TimerHeap.TimerLoop.OnTimer | stores/mongostore/watch.go:189-200 | exactly the deadlines due by the first clock reading are popped, none early, with a nudge if there were any; the timer is set by the second |
| TimerHeap.TimerLoop.ArmedInTime | stores/mongostore/watch.go:161-178 | the timer is armed for a stored deadline no later than any other, or for a millisecond after it was last set if that is later; with none stored, for a day |

## Left out

- StoresAgree: Mongo's free choices (the ids it mints, which runnable tasks it picks, how it breaks ties of run_at by id) are made to match the in-memory store's; the order in which a batch comes back is not modelled, and both stores read the clock alike except in finalize writes.
- EnqueueMany: the hook is not part of the model; what the JSON encoder and the BSON converter make of a payload are inputs.
- StopTerminates: goroutine scheduling is not assumed fair; the bound is on moves made, and StopNeverStalls says one is always possible.
- FinalizeBatch: the in-memory store takes its lock anew for every outcome; operations of others between two outcomes of one batch are not modelled.
- The 64-slot channel in front of the timer loop.
- TaskRecord: `append` always moves to a new slice; sharing of spare capacity is not modelled.
- FIFO order of the slice a Mongo batch claim returns: the winners are fetched unsorted.
- A flush carrying at most FinalizeBatch outcomes: the code takes the whole buffer, and FinBuffer.Take says so.
- Nudges in single mode: a signal between an empty claim and the wait is missed until the fallback poll; the broadcaster is not modelled.
- Counters, metrics and the janitor's windows.
- The queue registry itself (whether it agreed is an input), option validation, TTL inheritance, middleware, hooks.
- Backoff strategies: the retry time is an arbitrary input.
- Handler contexts and timeouts: a handler ends in success or failure, whenever it likes.
- The change stream's opening, filtering, reconnecting and resume tokens.
- BSON and JSON conversion, ids as 24-digit hex, write concern and driver retries beyond a write landing without its answer.
- Introspection, dashboard, examples and benchmarks.
