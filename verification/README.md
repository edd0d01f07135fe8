# FieldNote: verified model

FieldNote turns a recorded inspection into a report. A device records audio, creates a job, uploads the
recording and asks the server to process it; a worker transcribes it, compiles a report and renders a PDF;
the device pulls, edits and pushes reports offline-first. This project models that system in Dafny and
proves what its parts promise one another: resumability of the pipeline, single use of refresh tokens,
last-write-wins reconciliation, and report transformations that lose and invent nothing.

`dafny verify dfyconfig.toml` checks everything.

## How the model is laid out

| file | what it models |
|---|---|
| `Basics`, `Text`, `StableSort` | shared values, trimming, the stable sort by key |
| `ReportTree` | report rows, `insertSections`, the two ordered projections of the rows |
| `ReportCompiler` | reply validation, the one retry, `normalize` |
| `Pipeline` | the worker as a step machine over one job: `Step` runs one awaited call of `process`, of a stage body or of the failure handler, with the outcome chosen for it; `Fold` runs a thread along a plan of outcomes, and a plan that ends early is a crash |
| `PipelineSafety`, `PipelineAnswer`, `PipelineRequests`, `PipelineLate` | the same steps under full concurrency: any interleaving of attempts, bodies that outlive their stage timeout, handlers, API requests, uploads and redeliveries; what a process request answers among them and does to the queue entry; what late bodies and overlapping deliveries do |
| `PipelineLife`, `PipelineResume`, `PipelineOutcome`, `PipelineRefusal`, `PipelineStages`, `PipelineWitness` | a job's life as requests and deliveries, each cut off or failing anywhere: work done once, crash-resume equivalence, what every delivery does to entry, status, events and dead letters, when an attempt is for good, what it shows and logs, and the concrete lives in which a promise fails |
| `PipelineWorker` | `PipelineService` and `handleFailure` in their own imperative form, proved to be runs of the machine |
| `JobsApi`, `JobsService` | the jobs table with every user's rows; the endpoints as a class, and their awaited calls interleaved with everything else |
| `Auth`, `ApiClient`, `RetryLoop`, `ClientCalls`, `Backoff` | token rotation; the client actor with N callers, and everyone else, against it; one call's retry loop; the actor's callers and flights as runs of that loop; its pauses |
| `Reconcile`, `ReconcileSteps`, `JobCache`, `JobStore` | in-place tree reconciliation and last-write-wins, as values and over mutable objects |
| `EditRoundTrip` | form buffer, local save, PATCH, renumbering, read back, merge |
| `Pagination` | the page query and the pull loop |
| `ReportHtml` | escaping and the printed document |

A Prisma call or `$transaction` is one atomic step. Transcription, the compiler's replies and all other
foreign answers are oracles. `jobMaxAttempts` is a parameter everywhere (`attempts`). Times are integers.

## What was found

* A READY job can be lost: on the last attempt, when a worker died right after publishing and the first read of
  the redelivery fails (`PipelineWitness.ReadyCanBeLost`), or without any death when only the rendering's completed
  event cannot be written (`LostEventLosesTheReport`). `PipelineOutcome.ProgressKept` and `PublishedThenLost` say
  these are the only ways: a recorded failure for good of an attempt that found or left the job READY, with a
  handler that gets to its status write.
* One `pipeline/failed` event and one dead letter for each entry that fails for good is not what the code gives.
  `PipelineOutcome.OneEventOneLetter` says exactly when it does: the handler of the last delivery gets its dead letter
  through, and exactly one event was written, by that handler, by its attempt, or by one earlier delivery that marked
  the job unrecorded. It fails in four ways. A worker that dies after marking the job and before the queue records the
  failure: the redelivery writes the event again (`PipelineWitness.UnrecordedFailureDoublesTheEvent`). A handler cut
  off or failing between event and dead letter. A handler that finds the job FAILED although no delivery wrote an
  event, as after a death between `markFailed`'s two writes (`CrashInsideMarkFailedLosesTheEvent`). And a handler that
  stops before its own event write returns, or finds FAILED and stops before its dead letter: then both can be
  missing (`HandlerCutLosesBoth`). `EventsAgainstLetters`
  counts the first three over whole lives: they account for the difference of events and dead letters; the fourth
  does not show in it.
* An in-flight status without a live queue entry is for ever, since requests leave an in-flight job alone. It
  arises exactly when a failure for good is followed by a handler that does not get past `rawById` and `setStatus`
  (`PipelineWitness.FailedHandlerStrandsTheJob`), or a process request ends between its QUEUED write and its
  enqueue (`CutRequestStrandsTheJob`); `PipelineOutcome.InFlightMeansLive` is the equivalence.
* READY and FAILED are not final while a timed-out body is still at work. A rendering that times out in the last attempt
  fails the job for good, and when the renderer answers after all the same job turns READY, dead letter and failed event
  in place (`PipelineLate.LateBodyRevivesFailedJob`); a compilation that answers late replaces whatever report is there,
  also one the user has edited since (`LateBodies`). `LateBodyIsSilent` says that is all a late body can do.
* The work is done once only while deliveries do not overlap: an entry delivered again because its worker was taken for
  stalled is transcribed twice, and the later transcript wins (`PipelineLate.StallRepeatsWork`).
* A lost reply to a processed refresh can make the client present the rotated token again, and the server answers
  by revoking every session of the user (`ApiClient.LostReplyTriggersReuse`). Another device's replay does the same to
  this one, which has lost nothing: its next flight is a replay too (`ReplayElsewhereTriggersReuse`).
  `ReuseExactlyWhen`: that branch is reached exactly when some flight is heard after the server rotated its token and
  the reply was lost, or after someone else had the token revoked by presenting it or replaying one of that user.
* `process` answers the row it read first when its closing read no longer finds the job
  (server/src/jobs/jobs.service.ts:80-101): exactly a job soft-deleted between the two reads is then shown to its
  owner once more, in its old status, and is queued all the same (`PipelineAnswer.ProcessAnswers`,
  `PipelineRequests.OvertakenAskStillQueues`).
* An idempotency key outlives its job: after a soft delete the lookup no longer sees the row but the unique
  index does, so a create with that key is refused for ever (`JobsApi.CreateOutcome`, `KeyIsBoundForGood`).
* If the last job of a page is soft-deleted before the next request, the pull skips one job that never changed
  (`Pagination.DeletedCursorSkipsAJob`); `PullIsComplete` says exactly which jobs a pull can miss.
* A timestamp that does not parse counts as 1970 (ios/Sources/Core/Extensions/ISO8601.swift:20-24). Its comment says it never
  wins; it is adopted exactly unless the job has a pending edit later than 1970 (`JobCache.UnparsedTimestamp`).
* `maxAttempts` is 4, yet a call can send 5 requests: the pass after a refresh does not check it
  (`RetryLoop.SendBoundsAreTight`; exactly when, `MostSendsExactlyWhen`).
* The comment on the pauses speaks of up to 30% jitter either way (ios/Sources/Core/Networking/APIClient.swift:288). The three
  pauses a call can make are fixed (`Backoff.FirstPauses`), and none in the range in which `&*` does not wrap differs from
  its base by more than 15% (`JitterIsSmall`).

## Model

| member | source | states |
|---|---|---|
| StableSort.SortIsStable | server/src/jobs/job.mapper.ts:18-31 | the sort used by every ordered projection keeps, for each key, the elements in their order |
| StableSort.StableSortUnique | server/src/processing/compiler/report-compiler.service.ts:65 | ascending keys and unchanged order within a key leave exactly one result, so stability needs no algorithm to be stated |
| Text.TrimCuts | server/src/processing/transcription/transcription.service.ts:24-31 | trimming cuts a text into blank prefix, result and blank suffix, and the result has no blank end |
| Text.TrimKeepsExactly | server/src/processing/transcription/transcription.service.ts:24-31 | a text is left alone exactly when it neither begins nor ends with one of the listed blanks |
| ReportTree.DtoOfShuffled | server/src/jobs/job.mapper.ts:17-45 | whatever order rows come back in, both projections return the one listing by sortOrder |
| ReportTree.PersistThenProject | server/src/processing/pipeline/pipeline.service.ts:112-121 | projecting a stored tree, in any row order, gives back exactly the list that was inserted, numbered 0..n-1 |
| ReportTree.InsertedIsStored | server/src/jobs/jobs.repository.ts:145-166 | what `insertSections` writes is the report it was given, numbered 0..n-1 at both levels |
| ReportTree.InsertedIdsFresh | server/src/jobs/jobs.repository.ts:150-164 | the rows it creates carry new, pairwise different section ids |
| ReportTree.InsertFindings | server/src/jobs/jobs.repository.ts:155-164 | the findings loop writes each finding with its index as sortOrder |
| ReportTree.InsertSections | server/src/jobs/jobs.repository.ts:145-166 | the loop writes the specified rows, one per section and one per finding |
| ReportCompiler.NormalizeFaithful | server/src/processing/compiler/report-compiler.service.ts:56-68 | sections keep their order, exactly the empty ones vanish, and each kept one holds its own non-blank findings trimmed and stably sorted by severity |
| ReportCompiler.NormalizeIdempotent | server/src/processing/compiler/report-compiler.service.ts:56-68 | normalising a normalised report changes nothing |
| ReportCompiler.CompileMeetsSchema | server/src/processing/compiler/report-compiler.service.ts:37-53 | a compile succeeds exactly when one of two replies is valid, the first preferred, and its report is normal and within the schema's limits |
| ReportCompiler.ValidExactlyWhen | server/src/processing/compiler/report.schema.ts:10-22 | a reply is valid exactly within the limits, written out: 100 sections, titles of 1 to 200, 200 findings each, texts of 1 to 2000 characters after trimming, a known severity |
| ReportCompiler.MostSevereFirst | server/src/processing/compiler/report-compiler.service.ts:61-65 | in a compiled section safety comes before repair, maintenance and info, in that order |
| ReportCompiler.CompileSaysTheReply | server/src/processing/compiler/report-compiler.service.ts:37-68 | each section of a compiled report is one of the reply's, in the reply's order, with exactly its findings, trimmed and stably sorted |
| Pipeline.FoldPlus | server/src/processing/pipeline/pipeline.service.ts:50-89 | a run can be cut at any awaited call: running two plans in turn is running their concatenation |
| PipelineSafety.ReachableStatesAreSafe | server/src/processing/pipeline/pipeline.service.ts:96-174 | in every state any interleaving reaches: a live READY job has its pdfKey, stored document, non-blank transcript and no error; FAILED has an error of at most 1000 characters; a live in-flight job has its recording; the PDF is presigned exactly for the owner of a live READY job, and exists |
| PipelineSafety.RunKeeps | server/src/processing/pipeline/pipeline.service.ts:195-228 | the invariant survives every run, including writes of bodies that timed out |
| PipelineSafety.DeletedForGood | server/src/jobs/jobs.repository.ts:94-100 | a soft-deleted job stays deleted and invisible whatever runs on |
| PipelineAnswer.ProcessAnswers | server/src/jobs/jobs.service.ts:80-102 | in every interleaving a process request that answers shows a row that was its caller's and visible when read: the one of its closing read, or the one of its first exactly when the job was soft-deleted in between |
| PipelineRequests.AskOutcome | server/src/jobs/jobs.service.ts:80-97 | asking changes exactly the caller's live jobs with a recording that are CREATED, UPLOADING or FAILED, and of them the status, the error and a finished or missing entry |
| PipelineRequests.ActiveEntryStays | server/src/queue/processing-queue.service.ts:21-47 | in every run an entry a worker holds is changed by nothing but the queue's record of its end |
| PipelineRequests.UploadMakesProcessable | server/src/jobs/jobs.service.ts:90-97 | without its recording a job cannot be queued, after the upload it can |
| PipelineRequests.DeletedKeepsLabel | server/src/jobs/jobs.repository.ts:68-100 | a PATCH overtaken by a deletion writes no label in any continuation |
| PipelineRequests.OvertakenAskStillQueues | server/src/jobs/jobs.service.ts:90-101 | a deletion between its first read and its QUEUED write does not stop a process request: the deleted job is queued, and its caller is shown the row of the first read |
| PipelineLate.LateBodyIsSilent | server/src/processing/pipeline/pipeline.service.ts:203-228 | a body that outlived its timeout writes no event, no letter and no entry and cannot fail the job; it can change its own stage's work only |
| PipelineLate.LateBodies | server/src/processing/pipeline/pipeline.service.ts:132-173 | left alone it saves its transcript, replaces the report then in place, or publishes its document and turns the job READY |
| PipelineLate.LateBodyRevivesFailedJob | server/src/processing/pipeline/pipeline.service.ts:222-228 | any job whose last attempt times out in rendering fails for good, with event and letter, and turns READY when the renderer answers |
| PipelineLate.StallRepeatsWork | server/src/processing/pipeline/pipeline.service.ts:123-138 | two overlapping deliveries of one entry save two transcripts, and the later one stays |
| PipelineLate.NoRecordingNoWork | server/src/processing/pipeline/pipeline.service.ts:132-137 | an attempt on an untranscribed job whose recording is gone writes no transcript, report or document, whatever its calls answer, and is never for good |
| PipelineLate.AlongIsFold | server/src/processing/pipeline/pipeline.service.ts:50-89 | a worker left to itself in the interleaving machine does what its thread does in the life theorems |
| PipelineLife.AskIsTheRequest | server/src/jobs/jobs.service.ts:80-102 | the one-step process request, whole or cut off after any number of awaited calls, is those calls run one by one, enqueueing included |
| PipelineLife.WorkIsDoneOnce | server/src/processing/pipeline/pipeline.service.ts:123-159 | over a whole life a transcript is saved at most once, a non-empty report is committed at most once, and the stored ones are these; a READY job's document shows them |
| PipelineResume.ReadyIsCanonical | server/src/processing/pipeline/pipeline.service.ts:29-36 | a READY job looks the same whatever happened on the way |
| PipelineResume.FaultFreeAttemptReachesRendering | server/src/processing/pipeline/pipeline.service.ts:68-77 | from any resumable state an attempt without faults runs only the missing stages |
| PipelineResume.FaultFreeAttemptFinishes | server/src/processing/pipeline/pipeline.service.ts:68-77 | and then returns |
| PipelineResume.FinishedMeansReady | server/src/processing/pipeline/pipeline.service.ts:161-174 | an attempt that returns leaves the job READY |
| PipelineResume.CrashResumeEquivalence | server/src/processing/pipeline/pipeline.service.ts:29-89 | after any series of requests and attempts failing or crashing at any call, a completed one leaves the same status, transcript, report, key and view as one uninterrupted run, recorded by the queue or not |
| PipelineOutcome.HandlerRuns | server/src/processing/worker/processing.processor.ts:72-89 | the failure handler's whole effect, wherever it fails or dies: status FAILED and the cut message as the error after its second call, event after its third unless FAILED before, dead letter after its last |
| PipelineOutcome.DeliveryOutcome | server/src/processing/worker/processing.processor.ts:36-89 | for every delivery: how it can end, what each end does to entry and row, FAILED with the attempt's own message included, and exactly when it adds a pipeline/failed event and which dead letter |
| PipelineOutcome.MarkedExactlyWhen | server/src/processing/pipeline/pipeline.service.ts:78-104 | an attempt marks the job exactly when it reaches markFailed's event write and that returns; it leaves FAILED unmarked exactly when that write does not return, or FAILED was there and the first status write was not reached |
| PipelineOutcome.DeliveryBalance | server/src/processing/worker/processing.processor.ts:72-89 | a delivery adds an event without a dead letter, or the reverse, exactly in one of three windows |
| PipelineOutcome.EventsAgainstLetters | server/src/processing/pipeline/pipeline.service.ts:91-104 | over every life failed events and dead letters differ by exactly the deliveries that fell into each window |
| PipelineOutcome.EndsWithinAttempts | server/src/processing/worker/processing.processor.ts:60-70 | for every series of deliveries of an entry, cut off ones and requests in between included: it uses up one attempt for each completed one, ends once as many completed as it had left, in success with the job READY and no dead letter or for good with at most one |
| PipelineOutcome.EntryTotals | server/src/processing/worker/processing.processor.ts:72-89 | over an entry every unrecorded mark adds one event, and the delivery that ends it for good its own event and dead letter; nothing else adds any |
| PipelineOutcome.OneEventOneLetter | server/src/processing/worker/processing.processor.ts:72-89 | an entry that ends for good has exactly one event and one dead letter more exactly when the last handler gets its letter through and exactly one delivery accounts for the event: no earlier unrecorded mark, or one and a last delivery that found FAILED unmarked; a handler that does not get through its event write leaves neither |
| PipelineOutcome.NoFailureNoLetter | server/src/processing/worker/processing.processor.ts:60-70 | an entry that has not ended for good has no dead letter, and an event only from unrecorded marks |
| PipelineOutcome.InFlightMeansLive | server/src/queue/processing-queue.service.ts:21-47 | over every life an in-flight status lacks a live entry exactly when some operation stranded the job, and then nothing moves it again |
| PipelineOutcome.ProgressKept | server/src/processing/pipeline/pipeline.service.ts:50-106 | over every life transcript and report are never lost, and progress never goes back exactly unless a recorded last attempt on a READY job fails at its first read and the handler reaches its status write |
| PipelineOutcome.PublishedThenLost | server/src/processing/worker/processing.processor.ts:60-82 | a document the attempt published or found stays published exactly unless the failure is for good and the handler reaches its status write |
| PipelineRefusal.ForGoodExactlyWhen | server/src/processing/pipeline/pipeline.service.ts:78-104 | over every live job and every attempt: it is for good exactly when it comes to a transcription that hears nothing or a compilation both of whose replies are invalid, and the four calls after that return; the job then shows that reason. A thrown call, a timeout or a missing reply never makes it so |
| PipelineRefusal.RefusedForGood | server/src/processing/worker/processing.processor.ts:36-89 | such an attempt, once recorded, ends the entry as failed however many attempts are left, with the row FAILED and its reason, whatever the handler does |
| PipelineRefusal.MalformedFailsAtOnce | server/src/processing/compiler/report-compiler.service.ts:46-52 | two invalid replies fail a transcribed job at its first such attempt |
| PipelineStages.GuardsHold | server/src/processing/pipeline/pipeline.service.ts:50-72 | an attempt on a deleted, foreign, READY or recordingless job changes nothing, and which of them return and which throw for good |
| PipelineStages.FirstStage | server/src/processing/pipeline/pipeline.service.ts:74-77 | an attempt starts at the first stage whose work is missing; a blank transcript is none |
| PipelineStages.StageIsShown | server/src/processing/pipeline/pipeline.service.ts:195-206 | wherever an attempt is cut off, the status is the stage it was in, and READY once it has published |
| PipelineStages.AttemptLog | server/src/processing/pipeline/pipeline.service.ts:195-212 | every attempt appends its stages' events in order, each started and then completed, or failed with its message as the last stage, and only then the pipeline's failed event with the same message |
| PipelineStages.FailureIsReported | server/src/processing/pipeline/pipeline.service.ts:86-87 | a failure worth a retry carries the message of a call that threw, of the timeout or of the missing reply |
| PipelineWitness.ReadyCanBeLost | server/src/processing/worker/processing.processor.ts:72-89 | a worker's death after publishing and one failed read turn any READY job on its last attempt into FAILED |
| PipelineWitness.LostEventLosesTheReport | server/src/processing/pipeline/pipeline.service.ts:201-211 | so does a completed event that cannot be written, in the very attempt that published |
| PipelineWitness.CrashInsideMarkFailedLosesTheEvent | server/src/processing/pipeline/pipeline.service.ts:96-104 | a crash between the two writes of markFailed leaves FAILED and a dead letter without the event |
| PipelineWitness.UnrecordedFailureDoublesTheEvent | server/src/processing/pipeline/pipeline.service.ts:78-85 | a death after markFailed and before the queue's record leaves two events and one dead letter |
| PipelineWitness.HandlerCutLosesBoth | server/src/processing/worker/processing.processor.ts:72-89 | a handler whose event write fails leaves a FAILED job and a dead entry with neither event nor dead letter, outside the three windows and not stranded |
| PipelineWitness.FailedHandlerStrandsTheJob | server/src/processing/worker/processing.processor.ts:72-89 | a handler whose first read fails leaves the job QUEUED for ever, without a dead letter |
| PipelineWitness.CutRequestStrandsTheJob | server/src/jobs/jobs.service.ts:96-97 | a request that dies between its QUEUED write and its enqueue leaves the job QUEUED for ever |
| PipelineWorker.Worker.RunStage | server/src/processing/pipeline/pipeline.service.ts:195-212 | running a stage is a run of the machine, whatever each awaited call answers |
| PipelineWorker.Worker.MarkFailed | server/src/processing/pipeline/pipeline.service.ts:96-104 | marking a job failed is a run of the machine, for both callers |
| PipelineWorker.Worker.Process | server/src/processing/pipeline/pipeline.service.ts:50-89 | `process` in its own form is a run of the machine from its first read |
| PipelineWorker.Worker.HandleFailure | server/src/processing/worker/processing.processor.ts:55-89 | the handler does nothing unless terminal, and is otherwise a run of the machine |
| PipelineWorker.Worker.Deliver | server/src/processing/worker/processing.processor.ts:36-89 | one delivery with its handler, recorded by the queue or not, is the step the life theorems are about |
| JobsApi.CreateOutcome | server/src/jobs/jobs.service.ts:33-53 | exactly when a create replays, drafts, or is refused by the unique index; it changes no existing row |
| JobsApi.ReachableTables | server/prisma/schema.prisma:84 | in every interleaving at most one row for each user and key, every queued payload names its job's owner, every answered create names a row of its caller with its key |
| JobsApi.KeyIsBoundForGood | server/src/jobs/jobs.repository.ts:38-43 | once a row has a key, a lookup finds exactly it while it is live, and never another row afterwards |
| JobsApi.RetriedCreate | server/src/jobs/jobs.service.ts:38-49 | a retried create answers that row's id while it is live; once deleted it inserts and is refused |
| JobsApi.DeletedIsNeverReturned | server/src/jobs/jobs.repository.ts:38-61 | no scoped query, by id, by key or in a list, returns a soft-deleted job in any continuation |
| JobsApi.UpdateOutcome | server/src/jobs/jobs.service.ts:67-78 | a PATCH sets the label exactly when it carries one, and stores its sections exactly when it carries them; the rest of the job stays |
| JobsApi.RemoveOutcome | server/src/jobs/jobs.service.ts:104-117 | a delete marks the row and, when the storage answers, removes exactly the job's recording and document |
| JobsApi.HeaderKeyIs | server/src/jobs/jobs.controller.ts:46-48 | a blank or missing header is no key, any other is its trimmed text |
| JobsApi.CreateIsTheRequest | server/src/jobs/jobs.service.ts:33-53 | the one-step create is the header's key and its awaited calls, one after the other |
| JobsApi.AnswerStands | server/src/jobs/jobs.service.ts:38-49 | an answered create stays answered with the same reply in every continuation |
| JobsApi.StepStaysWithUser | server/src/jobs/jobs.repository.ts:7-11 | one awaited call of one user's request changes nothing of another user's jobs |
| JobsApi.RunStaysWithUser | server/src/jobs/jobs.service.ts:67-134 | nor does any run of that user's interleaved requests |
| JobsEndpoints.InOrderIsTakenAsListed | server/src/jobs/jobs.service.ts:142-153 | a body listed by ascending sortOrder, gaps or not, is taken as listed |
| JobsEndpoints.BodyIsSorted | server/src/jobs/jobs.service.ts:142-153 | for every body the report taken lists a stable sort of its sections by sortOrder, each with a stable sort of its own findings, texts and severities kept |
| JobsEndpoints.AnswersAreSafe | server/src/jobs/job.mapper.ts:17-45 | in every reachable state the answer shows the row's own label, status, transcript and error and its report in order; the PDF exactly when READY |
| JobsEndpoints.ProcessTells | server/src/jobs/jobs.service.ts:80-102 | 400 exactly without a recording for a job neither READY nor in flight; else READY with its PDF, in flight as it is, or QUEUED without an error |
| JobsEndpoints.UpdateIsTheRequest | server/src/jobs/jobs.service.ts:67-78 | the one-step PATCH is its awaited calls run without interruption |
| JobsEndpoints.RemoveIsTheRequest | server/src/jobs/jobs.service.ts:104-117 | likewise the delete, with and without its best-effort object deletion |
| JobsEndpoints.JobsService.RequireOwned | server/src/jobs/jobs.service.ts:128-134 | returns the caller's live job or none |
| JobsEndpoints.JobsService.Create | server/src/jobs/jobs.service.ts:33-53 | is the specified create over the table and keeps the index unique |
| JobsEndpoints.JobsService.FindOne | server/src/jobs/jobs.service.ts:62-65 | answers the visible job with its PDF only when READY |
| JobsEndpoints.JobsService.Update | server/src/jobs/jobs.service.ts:67-78 | refuses, or rewrites exactly that job's report and label, and answers it as read back |
| JobsEndpoints.JobsService.Process | server/src/jobs/jobs.service.ts:80-102 | refuses, leaves READY and in-flight jobs alone, or queues exactly that job; the closing read answers it as queued, or, when the job was soft-deleted before or after the QUEUED write, falls back to the row first read |
| JobsEndpoints.JobsService.EnqueueProcessing | server/src/queue/processing-queue.service.ts:21-47 | replaces a finished entry, leaves a live one alone |
| JobsEndpoints.JobsService.Remove | server/src/jobs/jobs.service.ts:104-117 | soft-deletes exactly that job and deletes only its own objects |
| JobsEndpoints.JobsService.GetPdfUrl | server/src/jobs/jobs.service.ts:119-126 | answers the stored key, or 404, or 409 unless READY |
| Auth.AuthService.IssueTokenPair | server/src/auth/auth.service.ts:79-92 | adds one active record |
| Auth.AuthService.SignInWithApple | server/src/auth/auth.service.ts:20-25 | registers the user and adds one active record |
| Auth.AuthService.RefreshToken | server/src/auth/auth.service.ts:32-77 | is the specified rotation, reuse response or refusal |
| Auth.RotationChains | server/src/auth/auth.service.ts:58-67 | replacement links form disjoint acyclic chains within one user; an active token ends its chain, and a chain has at most one |
| Auth.RefreshConserves | server/src/auth/auth.service.ts:32-77 | a refresh keeps a user's active count; reuse empties that user's and only that user's; a refusal changes nothing |
| Auth.ActiveCountBounded | server/src/auth/auth.service.ts:20-92 | in every run a user's active tokens never exceed their sign-ins |
| Auth.SingleUse | server/src/auth/auth.service.ts:28-31 | over any run a token is accepted at most once |
| Auth.ReplayKillsForGood | server/src/auth/auth.service.ts:40-47 | after a replay every token that user had is rejected in all continuations; other users' are untouched |
| Auth.AnswersExactly | server/src/auth/auth.service.ts:32-77 | over every run from the empty table: a refresh is accepted exactly when its token was issued, nothing has revoked it since, the time is before the expiry given by the operation that issued it and the next token is new; and which of the refusals else |
| Auth.ExpiredForGood | server/src/auth/auth.service.ts:49-51 | an expired token stays refused in every continuation with later times |
| Auth.StrangersAreRefused | server/src/auth/auth.service.ts:53-56 | a live token whose user is gone is refused and changes nothing |
| Auth.LinksAreTrades | server/src/auth/auth.service.ts:58-67 | in every run a record links to another exactly when a refresh traded the one for the other |
| ApiClient.Session.ApplyTokens | ios/Sources/Core/Networking/APIClient.swift:61-64 | memory and keychain hold the new pair |
| ApiClient.Session.ClearTokens | ios/Sources/Core/Networking/APIClient.swift:66-69 | both are empty |
| ApiClient.Session.CurrentAccessToken | ios/Sources/Core/Networking/APIClient.swift:237-244 | the token in memory, else the stored one, which is then kept in memory |
| ApiClient.Session.BeginRefresh | ios/Sources/Core/Networking/APIClient.swift:248-260 | joins the flight in progress, or starts the only one |
| ApiClient.Session.EndRefresh | ios/Sources/Core/Networking/APIClient.swift:261-271 | applies or clears the tokens and always resets the task |
| ApiClient.SingleFlight | ios/Sources/Core/Networking/APIClient.swift:190-283 | in every interleaving of N callers, whatever is lost, at most one refresh is unresolved, it is the one in refreshTask, and no token is used by two flights |
| ApiClient.ReuseExactlyWhen | server/src/auth/auth.service.ts:40-47 | a send of this client reaches the server's reuse branch exactly when a flight is heard with a token spoilt before: rotated for that flight with the reply lost, or revoked by what anyone else presented |
| ApiClient.NoLossNoReuse | ios/Sources/Core/Networking/APIClient.swift:248-283 | so it is never reached in a run that loses no reply of a processed refresh and in which others present only live tokens of their own |
| ApiClient.LostReplyTriggersReuse | ios/Sources/Core/Networking/APIClient.swift:274-283 | with one lost reply it can be reached, and every session of the user dies |
| ApiClient.ReplayElsewhereTriggersReuse | server/src/auth/auth.service.ts:40-47 | a replay by another device of the user leads this client's next flight into it, with no reply lost |
| ClientCalls.CallersRunTheLoop | ios/Sources/Core/Networking/APIClient.swift:190-283 | in every interleaving each caller has the outcome, the requests and the refreshes of the retry loop on the answers it gets |
| ClientCalls.SheetExists | ios/Sources/Core/Networking/APIClient.swift:190-235 | and every run gives every caller such answers |
| ClientCalls.FlightsRunTheLoop | ios/Sources/Core/Networking/APIClient.swift:274-283 | each flight's result and request count are those of the loop behind POST /auth/refresh |
| ClientCalls.EveryoneKeepsTheBudget | ios/Sources/Core/Networking/APIClient.swift:190-235 | no caller ever sends more than 5 requests or enters a refresh twice, and no flight sends more than 4 |
| ClientCalls.SessionHasSource | ios/Sources/Core/Networking/APIClient.swift:61-92 | memory and keychain agree, and hold the session of the launch or a pair the server answered to this client |
| ClientCalls.SignInTakesOver | ios/Sources/Core/Networking/APIClient.swift:78-92 | an answered sign-in brings its pair, whatever the client held |
| RetryLoop.RefreshTokens | ios/Sources/Core/Networking/APIClient.swift:248-283 | the refresh's error and request count, joined or owned |
| RetryLoop.PerformData | ios/Sources/Core/Networking/APIClient.swift:190-235 | the loop terminates with the specified outcome and counts for every answer sequence |
| RetryLoop.SendBounds | ios/Sources/Core/Networking/APIClient.swift:190-235 | at most maxAttempts+1 sends, one refresh, 2*maxAttempts+1 requests in all; an unauthorised call stays within maxAttempts |
| RetryLoop.SendBoundsAreTight | ios/Sources/Core/Networking/APIClient.swift:209-213 | those numbers are reached |
| RetryLoop.MostSendsExactlyWhen | ios/Sources/Core/Networking/APIClient.swift:194-233 | a call sends more than maxAttempts requests exactly when it is authorised with a token on every pass, passes 1 to 3 fail retryably with uncancelled pauses, pass 4 answers 401 and the refresh works |
| RetryLoop.SucceedsExactlyWhen | ios/Sources/Core/Networking/APIClient.swift:203-234 | a call succeeds exactly when some pass answers 2xx and every earlier one was a retryable failure below the limit with an uncancelled pause, or the one 401 whose refresh worked |
| RetryLoop.EndsExactlyAs | ios/Sources/Core/Networking/APIClient.swift:190-235 | how every call ends and after how many requests and refreshes, with the retryable replies written out as a transport failure or a status of at least 500 |
| RetryLoop.RefreshDecides | ios/Sources/Core/Networking/APIClient.swift:209-213 | after a first 401: without a session unauthorised, a joined flight's own error, a flight of its own unauthorised unless it ends in a 2xx that parses; then one more request, and a second 401 is final |
| RetryLoop.ClientErrorsAreFinal | ios/Sources/Core/Networking/APIClient.swift:215-224 | a first status of 300 to 499, the refreshable 401 aside, ends the call with that status after one request |
| RetryLoop.ServerErrorsAreRetried | ios/Sources/Core/Networking/APIError.swift:28-36 | a server that answers 5xx throughout gets exactly four requests, and its last status is the error |
| RetryLoop.ServerErrorsComeLast | ios/Sources/Core/Networking/APIClient.swift:217-224 | a call that ends in a 5xx has sent four or five requests |
| Backoff.DelaysGrow | ios/Sources/Core/Networking/APIClient.swift:287-293 | pauses strictly increase: the jitter never undoes the doubling |
| Backoff.FirstPauses | ios/Sources/Core/Networking/APIClient.swift:287-293 | the three pauses a call can make, in seconds |
| Backoff.JitterIsSmall | ios/Sources/Core/Networking/APIClient.swift:287-293 | a pause differs from its base by at most 15% as long as the product does not wrap |
| Backoff.WrappedPauses | ios/Sources/Core/Networking/APIClient.swift:287-293 | every pause lies between 0.55 and 1.15 of its base, and below 0.85 only where the product wraps |
| Reconcile.MergedHoldsDtos | ios/Sources/Data/JobStore.swift:112-136 | whatever was cached, a reconciled list holds exactly the DTOs |
| Reconcile.SyncedIsTheDtoTree | ios/Sources/Data/JobStore.swift:86-136 | the reconciled tree is the DTO tree with its rows in another order at both levels, and nothing else |
| Reconcile.SyncTwice | ios/Sources/Data/JobStore.swift:86-136 | reconciling with the same DTOs again changes nothing, not even the row order |
| ReconcileSteps.UpsertedShape | ios/Sources/Data/JobStore.swift:90-105 | what the first loop leaves: cached items rewritten in place, then the new ones in DTO order |
| ReconcileSteps.FindingLoops | ios/Sources/Data/JobStore.swift:116-135 | both loops together leave the survivors in their order, then the newcomers |
| ReconcileSteps.SectionLoops | ios/Sources/Data/JobStore.swift:90-109 | the same for sections, with their findings reconciled |
| JobCache.LastWriteWins | ios/Sources/Data/JobStore.swift:37-84 | over a whole pull an edited job keeps its edit exactly when every DTO of it is strictly older, else ends synced with the last; server fields are the last DTO's; upload bookkeeping never changes |
| JobCache.UnparsedTimestamp | ios/Sources/Core/Extensions/ISO8601.swift:20-24 | a DTO without a readable updatedAt is adopted exactly unless the job has a pending edit later than 1970 |
| JobCache.PulledNewJob | ios/Sources/Data/JobStore.swift:71-83 | a job the cache lacked ends synced with its last DTO, created at its first's time, and no upload pending |
| JobCache.EditStaysWithJob | ios/Sources/Data/JobStore.swift:171-178 | a local edit sets label, tree, stamp and dirty flag of its job and nothing else of it or of any other |
| JobCache.UpsertTwice | ios/Sources/Data/JobStore.swift:51-84 | merging the same DTO again changes nothing |
| JobCache.PullTwice | ios/Sources/Data/JobStore.swift:37-40 | pulling the same list of jobs again leaves the whole cache as it is |
| JobStores.JobStore.SyncFindings | ios/Sources/Data/JobStore.swift:112-136 | leaves the reconciled list; a finding object survives exactly when its id is among the DTOs |
| JobStores.JobStore.SyncSections | ios/Sources/Data/JobStore.swift:86-110 | leaves the reconciled tree; a section object survives exactly when its id is among the DTOs, and a surviving finding id keeps its object |
| JobStores.JobStore.UpsertExisting | ios/Sources/Data/JobStore.swift:54-69 | merges a DTO into a cached job in place as specified |
| JobStores.JobStore.InsertNew | ios/Sources/Data/JobStore.swift:71-83 | builds a new job and its tree from a DTO |
| JobStores.JobStore.UpsertDto | ios/Sources/Data/JobStore.swift:51-84 | one upsert over the store changes that job as specified and no other |
| JobStores.JobStore.MergePulled | ios/Sources/Data/JobStore.swift:37-40 | a pull over the mutable store is the specified fold |
| JobStores.JobStore.ApplyLocalEdits | ios/Sources/Data/JobStore.swift:171-178 | saves label and tree, marks the job dirty, changes no other job |
| EditRoundTrip.DtosAreClean | ios/Sources/Features/Reports/ReportEditView.swift:95-109 | the DTOs say exactly the trimmed, non-empty texts of the buffer in buffer order |
| EditRoundTrip.LocalSave | ios/Sources/Features/Jobs/JobSyncService.swift:160-189 | after the local save the cache shows the cleaned buffer, and the PATCH body built from it is taken by the server as that list |
| EditRoundTrip.AcceptedExactlyWhen | server/src/jobs/dto/update-job.dto.ts:17-74 | the PATCH passes validation exactly when the label has 1 to 200 characters and the cleaned buffer keeps the upper limits |
| EditRoundTrip.RefusedExactlyWhen | server/src/jobs/dto/update-job.dto.ts:17-74 | of all bodies, exactly those with an empty or overlong label, title or text, a negative sortOrder, or too many sections or findings are refused, the limits written out |
| EditRoundTrip.ServerTakes | server/src/jobs/jobs.repository.ts:68-92 | the server's report is the cleaned buffer, renumbered 0..n-1 with new ids, in whatever order its rows are read |
| EditRoundTrip.EditRoundTrip | ios/Sources/Features/Jobs/JobSyncService.swift:160-196 | for every buffer the cache shows exactly the cleaned buffer after the save, after a refusal, and after the answer is merged whichever side wins; it stays dirty exactly when the edit is strictly newer |
| Pagination.PullAll | ios/Sources/Features/Jobs/JobSyncService.swift:35-50 | the loop returns the concatenated pages and counts the requests |
| Pagination.PageIgnoresFront | server/src/jobs/jobs.repository.ts:53-61 | jobs created since do not change what follows a cursor |
| Pagination.QuietPull | server/src/jobs/jobs.service.ts:55-60 | without deletions the pages add up to the user's full list, newest first, in n / limit + 1 requests, even with newer jobs inserted in between |
| Pagination.PullIsComplete | server/src/jobs/jobs.repository.ts:53-61 | no duplicates; a job visible throughout is returned unless it is one a page skipped in place of its deleted cursor |
| Pagination.PulledNewestFirst | server/src/jobs/jobs.repository.ts:53-61 | whatever is created or deleted meanwhile, every pull lists its jobs newest first, and those of one instant by descending id |
| Pagination.UndisturbedPullIsComplete | server/src/jobs/jobs.repository.ts:53-61 | if no returned job is deleted meanwhile, every job visible throughout is returned |
| Pagination.DeletedCursorSkipsAJob | server/src/jobs/jobs.repository.ts:59 | deleting a page's last job before the next request makes the pull skip an unchanged job |
| ReportHtml.DecodeEscape | server/src/processing/pdf/report-html.ts:208-218 | decoding the five entities undoes escaping |
| ReportHtml.EscapeHasNoMarks | server/src/processing/pdf/report-html.ts:216-218 | escaped text has no raw markup character |
| ReportHtml.CountBySeverity | server/src/processing/pdf/report-html.ts:184-192 | the nested loops count the findings of each severity |
| ReportHtml.ChipsSumToTotal | server/src/processing/pdf/report-html.ts:44-53 | the chip counts add up to the header's total |
| ReportHtml.PrintedSummary | server/src/processing/pdf/report-html.ts:44-53 | read back from the document's text, the summary names each severity that has findings once, in severity order, with their number, and no other; the total in front is the number of findings |
| ReportHtml.DigitsAreDecimal | server/src/processing/pdf/report-html.ts:44-53 | a printed number reads back as itself and has no leading zero |
| ReportHtml.TotalIsNamed | server/src/processing/pdf/report-html.ts:146-151 | the total is followed by the singular for one finding and by the plural for any other number |
| ReportHtml.FindingIsPrinted | server/src/processing/pdf/report-html.ts:165-174 | finding i is printed with its own severity's colour and name and its own escaped text, after the findings before it |
| ReportHtml.SectionIsPrinted | server/src/processing/pdf/report-html.ts:55-58 | section k is printed with its own title and findings, after the sections before it |
| ReportHtml.SeveritiesLookDifferent | server/src/processing/pdf/report-html.ts:36-41 | no two severities share a name or a colour |
| ReportHtml.MarkupDependsOnShape | server/src/processing/pdf/report-html.ts:43-182 | the document's sequence of markup characters is that of the view with every text emptied |
| ReportHtml.DocumentReadsBack | server/src/processing/pdf/report-html.ts:43-182 | two views with the same document are the same view: label, date, job id, sections, findings and severities |

## Left out

- Foreign calls: R2/S3 and presigning, speech-to-text and model providers, Puppeteer, Apple and JWT verification, hashing. They are oracles or parameters; fresh tokens are new and the token hash is injective.
- Two server refreshes of one token at once, and report transactions overlapping under weak isolation: each is one atomic step here.
- `signOut` during a refresh flight: not part of the client machine.
- Late bodies in `PipelineWorker` and in the life theorems: a body that outlives its timeout has later effects only in `PipelineSafety` and `PipelineLate`. There READY is not claimed to be final.
- Requests and deliveries that overlap, in the results of `PipelineLife`, `PipelineResume` and `PipelineOutcome`: there an operation starts when the one before it has ended or was cut off. `PipelineSafety` interleaves them at every awaited call.
- A job row that is missing: rows are never removed, so the not-found branches of `process` and `markFailed` do not arise.
- The queue's own stall limit, backoff delays and `removeOnComplete` ageing.
- Row timestamps in the pipeline, and `generatedAt`: `updatedAt` is a free parameter of `EditRoundTrip`, the date a free text of `ReportHtml`.
- Agreement of the PDF with a report edited after rendering: edits do not render again. `CrashResumeEquivalence` and `WorkIsDoneOnce` are about lives without edits.
- Whitespace: the set is what JavaScript and Swift have in common; U+0085 and U+FEFF, which only one of them trims, are not in it. Lengths count characters, not UTF-16 units.
- PipelineSafety.ReachableStatesAreSafe: soft deletion keeps objects that a failed cleanup left behind; only live jobs are claimed about.
- JobStores.JobStore.SyncSections: back references from sections to jobs and from findings to sections are not fields here, and a finding id that moves to another section is a new object.
- SwiftData: `context.delete` is removal from the collection, a save always succeeds, and ids within a list are different, as its unique attribute has it.
- Pagination: the page query is modelled on rows already in index order, with the cursor compared by position as the database does, soft-deleted or not; `listScoped`'s report include is not part of it.
- Polling, upload driving, `registerCreated`, `markUploaded`, local deletion and `activeJobIds`: bookkeeping around the merge that adds only flat branches.
- The style sheet and the document's fixed markup away from its holes (`ReportHtml.Bulk`) are parameters, since no result depends on them; the date's formatting is not modelled.
- Exception mapping, DTO decoding, controllers beyond the idempotency header, health checks, configuration and wiring.
