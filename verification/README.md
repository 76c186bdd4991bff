# Verification model of the distributed task queue

The system accepts jobs through a Gateway, keeps them in three lock-protected stores (Job, Queue,
Result), and hands them to polling workers through a Coordinator. No transaction spans two stores:
Gateway and Coordinator drive them through sequences of RPCs, and other handlers, resubmissions,
cancellations and failures may come between any two of them. This project models the stores, the
handlers, the worker, the Design B router and the load generator's pacing, and proves what holds over
every run. `dafny verify dfyconfig.toml` checks all of it.

## How the model is built

1. **Stores.** `Servicers` has the three servicers as classes that update their fields in place. Each
   method is proved equal to a function of the old state (`JobTable`, `Stores`, `Listing`). A handler
   body runs under its store's lock, so one call is one atomic step.
2. **Handlers.** `Handlers` writes every Gateway and Coordinator handler as a continuation: a `Pc` names
   the call being awaited, `CallOf` is that call, `Resume` is the code between its reply and the next call
   or the answer. `Orchestrators` has the same handlers as imperative methods with early returns and
   compensation, each proved to do to the stores, and to answer, exactly what the continuation does.
   `Undisturbed` writes out, from any state of the stores, what each of them answers and changes when nothing
   comes in between, without reference to how it is computed.
3. **Runs.** `Protocol` is the running system: three stores and any number of handlers in flight. A step
   starts a handler, delivers the call it waits for, or fails that call. The caller of a failed call sees
   an error at once; the call itself stays behind and may land at any later time, or never. That covers a
   refusal, a lost reply and a late effect. `SoloRuns` shows that running a handler by itself over an
   unreliable network, as the imperative methods do, is one of these runs.
4. **Regimes.** Theorems name what they need. *Unrestricted* (`Unrestricted`, `Answers`, `Submission`): any
   clients, any reports, any failures. *Regular* for a job (`Agreement`, `Acceptance`): no resubmission
   re-enqueues the job while it is QUEUED, and reports about it are its worker's own; failures are
   arbitrary. `Clients` derives this from what clients and workers send, and `Readiness` shows that finished
   jobs' results are then answered. *Careful* (`NoLoss`): the calls that carry a job from one place to the
   next do not fail; everything else is arbitrary.
5. **Exact conditions and counterexamples.** What fails without a regime is settled over unrestricted runs:
   `Contradiction` says exactly when status and envelope agree, `Losses` when a job is dropped, `Acceptance`
   when an accepted job is gone, `Compensation` when a retry gets its job. `Disagreement`, `Losses` and
   `Acceptance` each have concrete runs from the initial state, built from the steps in `Scenario`.
6. **Worker, router, load generator.** `Worker`, `Reporting`, `Backoff` and `Drain` follow the worker loop;
   `WorkerReports` what a worker reports; `Registry` the Coordinator's liveness table; `Routing`, `OwnerNodes`
   and `Cluster` the owner-affine nodes; `Pacing`, `RequestMix` and `ClientRetry` the load generator.

Assumptions: identifiers from the generator are stripped, non-empty and never repeat; services do not
restart; clock readings are nondecreasing where a statement says so. The hash that assigns owners, SHA-256
and UTF-8 are function parameters; clocks, randomness and the network are arbitrary inputs.

## Where the code and its documentation differ

- `docs/spec/error-idempotency.md` promises that the same key with the same payload returns the original
  job while the key is retained. The code breaks that in two ways. After a compensated submit the key is
  retained but its job is gone, and the answer is INTERNAL. And a retry that finds its job still QUEUED
  enqueues it again; if that enqueue fails the answer is UNAVAILABLE. `Compensation.RetryGetsTheJobExactlyWhen`
  gives the exact condition.
- `docs/spec/state-machine.md` has compensation roll back a submission that was not accepted. A retry whose
  enqueue fails compensates too, and so deletes a job that an earlier SubmitJob was told is accepted:
  `Acceptance.ResubmissionDeletesAcceptedJob` is such a run, `Acceptance.AcceptedExistsExactlyWhen` and
  `Compensation.RetryDeletesExactlyWhen` say when it happens, and `Acceptance.AcceptedJobsStay` that without
  such a retry accepted jobs stay.
- `docs/spec/state-machine.md` asks that work is not silently dropped when a dispatch fails. A dequeue whose
  reply is lost drops its job: `Losses.FailedFetchDropsJob` is such a run, and `Losses.DroppedExactlyWhen` the
  exact condition for all the ways it can happen. A dispatch whose last read fails leaves its job RUNNING
  with nobody: `Undisturbed.FailedReadStrandsTheJob`.
- `docs/spec/error-idempotency.md` and `docs/spec/state-machine.md` say that the first terminal write wins.
  That holds in the Result store by itself and in the Job store by itself, but the Coordinator ignores
  which status is already stored, so the two can end with different winners:
  `Contradiction.AgreesExactlyWhen` says when, and `Disagreement` that it happens.
- `docs/spec/api-contracts.md` lists only dequeue and removal among the Coordinator's queue calls; the code
  also enqueues, in the rescue step. `Unrestricted.DispatchedAtMostOnce` shows that step is never reached.

## Model

| member | source | states |
|---|---|---|
| Agreement.StatusAndEnvelopeAgree | services/gateway/servicer.py:424-477 | over every regular run, under any failures and late effects, a terminal job has an envelope and the envelope carries the job's status |
| Agreement.NoMismatch | services/gateway/servicer.py:374-384 | in a regular run no GetJobResult ever takes the mismatch branch |
| Agreement.EnvelopeIsTheWorkers | services/coordinator/servicer.py:280-318 | in a regular run the envelope of a dispatched job is the one report its assignment determines |
| Agreement.DispatchedJobsMoveThroughStages | services/worker/worker.py:510-578 | in a regular run, with retried reports failing, landing late and interleaving in any way, a dispatched job is running without an envelope, running with the envelope its assignment determines, or terminal with that envelope and its status |
| Agreement.OneHolder | services/queue/servicer.py:70-91 | in a regular run at most one operation may still take a job out of QUEUED, and then the job is neither queued nor about to be |
| Agreement.RemovalWinsTheCas | services/gateway/servicer.py:434-477 | in a regular run a cancel that removed the job has its CAS applied unless the record was deleted; the fallback behind the CAS is unreachable |
| Contradiction.AgreesExactlyWhen | services/coordinator/servicer.py:280-318 | over every run without restriction, a job's terminal status and envelope agree if and only if no terminal CAS was applied against a stored envelope of another status |
| Contradiction.AgreesExactlyWhenNotOverruled | services/coordinator/servicer.py:280-318 | the same in terms of what handlers know: they agree if and only if no operation whose StoreResult was answered with one status had its CAS to another applied |
| Contradiction.StepBreaksExactlyWhen | services/job/servicer.py:317-343 | (supporting) one step of any handler breaks the agreement if and only if it is such a CAS |
| Clients.DisciplinedRunsAgree | services/worker/worker.py:426-483 | when no two SubmitJobs share a key and reports are what the worker loop builds, then under any failures every terminal job has an envelope of its status and every accepted job exists |
| Clients.FreshKeysNeverRequeue | services/job/servicer.py:177-226 | if no SubmitJob of a run repeats a key, no job is ever put back in the queue, lost and late creates included |
| Disagreement.ResubmissionBreaksAgreement | services/gateway/servicer.py:278-287 | a failure-free run, worker reports only, in which one same-key resubmission leaves a DONE job with a CANCELED envelope |
| Disagreement.StrangerBreaksAgreement | services/coordinator/servicer.py:280-305 | a failure-free run without resubmission in which one foreign report leaves a DONE job with a FAILED envelope |
| Reporting.ReportAgreesExactlyWhen | services/coordinator/servicer.py:280-318 | a delivered report of a running job leaves status and envelope in agreement if and only if no other status was stored before |
| Unrestricted.TerminalJobsHaveEnvelopes | services/gateway/servicer.py:346-372 | over every run a terminal job has an envelope, and no GetJobResult with its two separate reads has found a terminal status without one |
| Unrestricted.DispatchedAtMostOnce | services/coordinator/servicer.py:201-253 | over every run at most one FetchWork answers with a given job, stale and repeated queue entries included, and the rescue enqueue is never reached |
| Unrestricted.CallEvolves | services/job/servicer.py:317-362 | (supporting) what one call can do to one record: the lifecycle graph, a flag that only rises, deletion only while QUEUED, nothing once terminal |
| Answers.AcceptedCancelSticks | services/gateway/servicer.py:411-497 | from an accepted CancelJob on, the job is terminal or flagged for as long as its record exists, and a terminal status in the answer is final |
| Answers.ResultsAreFinal | services/gateway/servicer.py:332-394 | once a result has been answered as ready, every later result answer for that job is the same |
| Answers.TerminalRecordIsFinal | services/job/servicer.py:234-246 | a terminal record is never deleted and no field of it changes, over every run |
| Answers.StatusAnswersAreFinal | services/gateway/servicer.py:304-330 | once a status answer shows a terminal status, every status answer given later for that job is the same |
| Answers.TerminalStatusAnswersAgree | services/gateway/servicer.py:304-330 | any two status answers that show a terminal status for a job agree in every field |
| Answers.AcceptedReportsAreFinal | services/coordinator/servicer.py:280-318 | over every run, a report answered as accepted means that its job is terminal with an envelope from then on, whatever else races with it or lands late |
| Readiness.FinishedJobsAreAnswered | services/gateway/servicer.py:332-394 | in a regular run, a GetJobResult asked once its job is terminal, and none of whose own calls fails, answers with the job's status and envelope as soon as it answers at all, whatever goes on around it |
| Submission.OneKeyOneJob | services/gateway/servicer.py:248-302 | over every run, late effects included, as long as the index does not forget a key all submissions under it that were answered with a job got the same job and had the same payload |
| Submission.RoomForgetsNothing | services/job/servicer.py:220-224 | if all the keys a run uses fit under the cap, the index never forgets any of them |
| Acceptance.AcceptedJobsStay | services/gateway/servicer.py:225-302 | over every run in which no resubmission re-enqueues the job, under any failures, a job some SubmitJob was answered with exists |
| Acceptance.AcceptedExistsExactlyWhen | services/job/servicer.py:234-246 | over every run, a job some SubmitJob was answered with exists if and only if no compensation ever arrived at it while it was QUEUED |
| Acceptance.ResubmissionDeletesAcceptedJob | services/gateway/servicer.py:278-296 | a concrete run with one failed call, the enqueue of a resubmission, that deletes a job an earlier SubmitJob was told is accepted |
| Lifecycle.RecordsTell | services/job/servicer.py:210-343 | over every run with clocks that do not go back, each record's timestamps are set exactly as its status says and in order, a canceled job is flagged, and only a failed one has a reason |
| Lifecycle.StatusAnswersTell | services/gateway/servicer.py:304-330 | every status answer of every such run shows timestamps in order and as the shown status says: a DONE or FAILED job was created, started and finished in that order, a RUNNING one has not finished, a QUEUED one not started |
| NoLoss.NoJobIsDropped | services/gateway/servicer.py:278-302 | in every state of a careful run a QUEUED job is in the queue or in the hands of one of three kinds of handler |
| NoLoss.QuietSystemHasAllJobsQueued | services/coordinator/servicer.py:189-231 | once all handlers of a careful run have answered, every QUEUED job is in the queue |
| Losses.DroppedExactlyWhen | services/coordinator/servicer.py:189-231 | over every run, a QUEUED job is in no queue and in nobody's hands if and only if some step dropped it and no later one brought it back: a sole carrier that fails, or a lost create, dequeue or removal that lands, against a late enqueue, a resubmission, a landed CAS or a deletion |
| Losses.StepDropsExactlyWhen | services/gateway/servicer.py:278-302 | (supporting) of the steps from a state where the job is queued or carried, exactly those drop it |
| Losses.FailedFetchDropsJob | services/coordinator/servicer.py:189-199 | a concrete run with one failed call, a dequeue that lands after all, that leaves an accepted job QUEUED with nothing under way |
| Handlers.ResumeMakesProgress | services/gateway/servicer.py:396-497 | (supporting) every handler finishes after a bounded number of calls, whatever the replies |
| SoloRuns.SoloIsARun | services/gateway/servicer.py:248-497 | a handler run alone over any network is a legal run of the protocol with the same stores and answer |
| Undisturbed.StatusIsAnswered | services/gateway/servicer.py:304-330 | from any state, an undisturbed GetJobStatus of an existing job answers with the record field by field, of an unknown one with NOT_FOUND, and changes nothing |
| Undisturbed.ResultIsAnswered | services/gateway/servicer.py:332-394 | from any state, an undisturbed GetJobResult changes nothing, answers with the envelope if and only if the job is terminal and an envelope of its status is stored, that it is not ready if and only if the job exists and is not terminal, and tells the two anomalies and the unknown job apart likewise |
| Undisturbed.CancelOfBusyJob | services/gateway/servicer.py:396-497 | an undisturbed CancelJob of a RUNNING job, or of a QUEUED one that has just left the queue, sets the flag, changes nothing else, and is accepted with the job's status |
| Undisturbed.CancelOfQueuedJob | services/gateway/servicer.py:411-477 | an undisturbed CancelJob of a queued job takes it out of the queue, stores the cancellation envelope with the stripped or default reason, makes the job CANCELED, changes nothing else, and is accepted |
| Undisturbed.CancelOfFinishedJob | services/gateway/servicer.py:411-432 | CancelJob of a terminal job answers with its status as already terminal, of an unknown one with NOT_FOUND, and changes nothing |
| Undisturbed.CasCancels | services/gateway/servicer.py:458-497 | from any state other operations may have left, the CAS of a cancellation cancels a QUEUED job, reports a terminal one as it is, and asks one that is running by now to stop |
| Undisturbed.FlagIsSet | services/gateway/servicer.py:205-223 | (supporting) the fallback flags any job that is not terminal, and reports a terminal one as it is |
| Undisturbed.SubmitMakesTheJob | services/gateway/servicer.py:248-302 | an undisturbed SubmitJob under an unused key makes exactly one record, every field of it from the request and the clock, queues the job last and answers with it; without an identifier nothing changes |
| Undisturbed.FetchTakesTheHead | services/coordinator/servicer.py:189-253 | an undisturbed FetchWork of a live worker takes the head of the queue; a QUEUED job becomes RUNNING and is assigned with its type, a stale entry is dropped, nothing else changes |
| Undisturbed.FetchIdles | services/coordinator/servicer.py:170-199 | (supporting) with nothing queued, or for a worker that is not live, FetchWork changes nothing and assigns nothing |
| Undisturbed.RescuePutsBack | services/coordinator/servicer.py:215-231 | from any state, the rescue puts a job that is QUEUED and in no queue back, and leaves any other alone |
| Undisturbed.FailedReadStrandsTheJob | services/coordinator/servicer.py:233-241 | when only the last call of a dispatch fails the worker is refused, and the job is RUNNING with nobody |
| Undisturbed.ReportEndsTheJob | services/coordinator/servicer.py:255-318 | a delivered report of a running job is accepted, gives the job the outcome's status, time and reason, and stores the report's envelope unless there is one |
| Undisturbed.OtherReportsChangeNoRecord | services/coordinator/servicer.py:280-318 | a delivered report of a job that is not running changes no record and is accepted if and only if the job is terminal; too large an output is refused and not stored |
| Undisturbed.ErrorIsShown | services/gateway/servicer.py:96-137 | a Gateway request, at whichever call it fails, makes no further call and shows the client's own mistakes as they are, transient trouble as UNAVAILABLE and the rest as INTERNAL |
| Undisturbed.CoordinatorErrorIsUnavailable | services/coordinator/servicer.py:189-318 | (supporting) a Coordinator request is refused as UNAVAILABLE at whichever call it fails, but a failed rescue is answered with no work |
| Undisturbed.MalformedIsRefused | services/gateway/servicer.py:248-416 | (supporting) requests without a job type, job or worker, or without an outcome, are refused before any call |
| Orchestrators.Gateway.SubmitJob | services/gateway/servicer.py:248-302 | the imperative handler, compensation included, equals its continuation in effect and answer over any network |
| Orchestrators.Gateway.GetJobStatus | services/gateway/servicer.py:304-330 | the imperative handler equals its continuation over any network |
| Orchestrators.Gateway.GetJobResult | services/gateway/servicer.py:332-394 | the imperative handler equals its continuation over any network |
| Orchestrators.Gateway.CancelJob | services/gateway/servicer.py:396-497 | the imperative handler with its early returns and fallbacks equals its continuation over any network |
| Orchestrators.Gateway.CancelRemoved | services/gateway/servicer.py:447-477 | the part behind a successful removal: envelope first, then the CAS, then the fallback |
| Orchestrators.Gateway.AttemptSubmitCompensation | services/gateway/servicer.py:225-246 | compensation deletes the job only while it is QUEUED, and its failure is swallowed |
| Orchestrators.Gateway.SetCancelRequested | services/gateway/servicer.py:205-223 | the cancel fallback equals its continuation over any network |
| Orchestrators.Coordinator.FetchWork | services/coordinator/servicer.py:170-253 | the imperative handler equals its continuation for the liveness its registry gives, prunes the registry, and hints a retry only without an assignment |
| Orchestrators.Coordinator.Rescue | services/coordinator/servicer.py:215-231 | the best-effort rescue equals its continuation over any network |
| Orchestrators.Coordinator.ReportWorkOutcome | services/coordinator/servicer.py:255-318 | the imperative handler equals its continuation: envelope first, then the CAS, accepted if applied or already terminal |
| Orchestrators.Coordinator.Complete | services/coordinator/servicer.py:293-318 | the part behind the stored envelope: the terminal CAS, accepted if applied or already terminal |
| Orchestrators.Coordinator.WorkerHeartbeat | services/coordinator/servicer.py:142-168 | a heartbeat with a non-blank worker prunes the registry and records the worker; a blank one changes nothing |
| Orchestrators.Coordinator.IsWorkerLive | services/coordinator/servicer.py:133-140 | answers liveness and leaves the registry pruned |
| Orchestrators.Coordinator.PruneExpiredWorkers | services/coordinator/servicer.py:123-131 | the removal loop leaves exactly the entries that have not expired |
| Orchestrators.ClampRetryAfter | services/coordinator/servicer.py:119-121 | (supporting) the hint lies in its range and values in the range are kept |
| Registry.PruningIsInvisible | services/coordinator/servicer.py:123-163 | a worker is live if and only if its latest heartbeat in the whole history is recent enough, whatever was pruned in between |
| Registry.HeartbeatRecords | services/coordinator/servicer.py:142-168 | (supporting) a heartbeat drops exactly the expired workers and records its own as seen now |
| Compensation.CompensationLeavesOnlyTheKey | services/gateway/servicer.py:225-246 | after a refused enqueue and its compensation no record and no queue entry remains, while the index still maps the key to the deleted job |
| Compensation.RetryGetsTheJobExactlyWhen | services/gateway/servicer.py:278-302 | over any network, a retry with an equal payload under a retained key is answered with the job if and only if the record exists, the create is answered, and, for a job still QUEUED, so is the enqueue |
| Compensation.RetryDeletesExactlyWhen | services/gateway/servicer.py:225-246 | such a retry deletes the job it found if and only if the job was QUEUED, the enqueue failed and the compensation arrived |
| Compensation.TheKeyStaysSpent | services/job/servicer.py:177-226 | the key of a deleted job stays spent through any history of fewer other keys than the cap |
| Idempotency.IdempotencyWindow | services/job/servicer.py:177-226 | after a keyed create, any history with fewer other keys than the cap keeps the key, which is answered with that job and for an equal payload only; the index stays within its cap |
| Idempotency.WindowIsExact | services/job/servicer.py:205-226 | among histories of successful creates for other keys, those that keep the key are exactly those with fewer such keys than the cap |
| JobTable.FingerprintsCompareMaps | services/job/servicer.py:113-116 | fingerprints agree if and only if the payloads agree field by field with labels compared as maps |
| JobTable.JobCallKeeps | services/job/servicer.py:170-362 | every call keeps the table keyed by its records and the index duplicate-free and within its cap |
| Undisturbed.TransitionIs | services/job/servicer.py:303-343 | the compare-and-swap is applied if and only if the status is the expected one and the step one of five, then writes just the fields that go with the new status; otherwise nothing changes and the reply tells why |
| Undisturbed.DeletionIs | services/job/servicer.py:228-246 | (supporting) the conditional deletion removes that record only, and only at the expected status, which the reply names |
| Undisturbed.FlaggingIs | services/job/servicer.py:345-362 | the flag is written unless the job is terminal, and the reply says applied if and only if the table changed |
| Undisturbed.StoringIs | services/result/servicer.py:60-122 | (supporting) only terminal envelopes within the cap are stored, only once, and the reply names the status that is stored |
| Servicers.JobServicer.CreateJob | services/job/servicer.py:170-226 | the in-place create with its eviction loop yields the state and reply of the specification function the window theorems are about |
| Servicers.JobServicer.NewJobId | services/job/servicer.py:159-168 | the drawing loop returns the first candidate the node owns, or none within the attempts |
| Servicers.PickedIdsAreOwned | services/job/servicer.py:159-168 | with owner routing on, the identifier handed out is the first candidate that hashes to the node, and giving up means that none within the attempts does |
| Servicers.OwnerIsTheRemainder | common/owner_routing.py:9-23 | (supporting) the owner of a key is the remainder of its hash by the number of nodes |
| Servicers.JobServicer.DeleteJobIfStatus | services/job/servicer.py:228-246 | new table and reply: deleted only at the expected status, the other cases told apart |
| Servicers.JobServicer.TransitionJobStatus | services/job/servicer.py:303-343 | new table and reply of the compare-and-swap with all its error cases and timestamps |
| Servicers.JobServicer.SetCancelRequested | services/job/servicer.py:345-362 | new table and reply; a terminal record is left alone |
| Servicers.JobServicer.ListJobRecords | services/job/servicer.py:261-301 | the page computed by the method is the one the paging theorems are about |
| Servicers.JobServicer.ValidateStatusFilter | services/job/servicer.py:152-157 | (supporting) accepts a filter if and only if it does not name the unspecified status |
| Listing.PagesCoverTheTable | services/job/servicer.py:261-301 | following tokens from the empty one terminates and yields exactly the records the filter admits, each once, in order of creation time with ties by identifier, however the table iterates from page to page |
| Listing.SummariesAreInOrder | services/job/servicer.py:118-128 | the gathered summaries show the records field by field, with creation times rising or falling as asked and ties in order of identifier |
| Sorting.StringLeIsLexicographic | services/job/servicer.py:286-289 | (supporting) identifiers compare by the first character in which they differ, a prefix first |
| Listing.PageHolds | services/job/servicer.py:276-297 | a page holds 50 jobs unless asked otherwise, at most 200, fewer only at the end, and has an empty next token if and only if nothing follows |
| Listing.RefusedExactlyWhen | services/job/servicer.py:143-157 | a listing is refused if and only if its token is neither blank nor digits or its filter names the unspecified status |
| Listing.OrderIsInvisible | services/job/servicer.py:281-297 | a page does not depend on the iteration order of the table |
| Listing.FollowReadsOn | services/job/servicer.py:291-301 | from any page on, asking again with each token ends at the first empty one and gathers exactly what lies behind the offset |
| Listing.TokensRoundTrip | services/job/servicer.py:143-150 | a printed offset is read back as itself and is never the end marker |
| Servicers.QueueServicer.EnqueueJob | services/queue/servicer.py:44-58 | appends a new identifier, leaves a known one where it is, refuses a blank one, and keeps the queue duplicate-free |
| Servicers.QueueServicer.DequeueJob | services/queue/servicer.py:60-74 | takes exactly the head, or reports an empty queue, or refuses a blank worker |
| Servicers.QueueServicer.RemoveJobIfPresent | services/queue/servicer.py:76-91 | removes the identifier, keeps the order of the rest, and tells whether it was there |
| Fairness.PlacesAreConserved | services/queue/servicer.py:55-91 | over any history an entry that stays moves up by exactly one place per dequeue and per removal ahead of it |
| Fairness.ServedInTurn | services/queue/servicer.py:55-91 | an entry with p others ahead leaves, dequeued or removed by name, no later than the next p+1 dequeues |
| Fairness.ServedExactlyInTurn | services/queue/servicer.py:70-74 | without removals the dequeue after p others hands out exactly the entry that had p ahead |
| Fairness.NobodyOvertakes | services/queue/servicer.py:55-91 | two entries that stay keep their relative order |
| Servicers.ResultServicer.StoreResult | services/result/servicer.py:60-122 | the first valid envelope is kept, later ones are answered with its status, bad ones refused |
| Servicers.ResultServicer.GetResult | services/result/servicer.py:124-164 | answers with the stored envelope, or that there is none |
| Unrestricted.EnvelopesStay | services/result/servicer.py:100-116 | (supporting) no call of any kind changes or removes a stored envelope |
| Reporting.RetryIsIdempotent | services/worker/worker.py:510-578 | for any failures over any number of attempts the stores end untouched, with the envelope, or as one success leaves them up to its timestamp; an acknowledged report means the last |
| Reporting.CleanReportSettles | services/coordinator/servicer.py:280-318 | an undisturbed report ends in that single-success state at the first attempt |
| Reporting.RetriesSucceed | services/worker/worker.py:510-578 | if any attempt up to the last gets through, and the worker is not stopped before it, the report is accepted and the job has the reported status and the report's envelope, whatever the attempts before it did |
| Worker.WorkerRuntime.ReportWithRetry | services/worker/worker.py:510-578 | the retry loop equals the attempts the theorems above are about: it makes them one after the other, stops only when one is accepted, after the last, or when the worker is stopped, pauses once after each failed one but the last, and each pause is within its backoff window |
| Worker.WorkerRuntime.RunIteration | services/worker/worker.py:317-337 | one iteration, heartbeat to report, equals its specification on stores and registry; idle sleeps are at least the minimum |
| Worker.WorkerRuntime.Run | services/worker/worker.py:307-315 | the main loop equals the iterations in sequence; with arriving heartbeats and an interval plus fetch delay within the timeout the worker is live at every fetch |
| Worker.WorkerRuntime.ExecuteAndReport | services/worker/worker.py:426-491 | an interrupted execution reports nothing; otherwise the report is the one the assignment determines |
| WorkerReports.WorkerReportSays | services/worker/worker.py:426-483 | the outcome is FAILED if and only if the trimmed, lowered job type has "force-fail" somewhere in it, and SUCCEEDED otherwise; every other field of the report is written out |
| WorkerReports.ForcedExactlyWhenAsked | services/worker/worker.py:215-221 | a failure is forced if and only if "force-fail" stands at some position of the trimmed, lowered job type |
| WorkerReports.LowerIsCharacterwise | services/worker/worker.py:220-220 | (supporting) lowering keeps the length and moves exactly the letters A to Z, each to its small one |
| WorkerReports.PlannedRuntimeIs | services/worker/worker.py:493-498 | (supporting) the simulated runtime is 120 ms unless the job asks for one, and between 20 ms and 2 s if it does |
| Drain.DrainEmptiesTheQueue | services/worker/worker.py:317-337 | a live worker, undisturbed, empties the queue in exactly as many iterations as there are entries, finishes every QUEUED entry with an envelope, as FAILED if and only if "force-fail" stands in its type and as DONE otherwise, skips stale entries and changes no other job |
| Drain.DrainProgress | services/coordinator/servicer.py:189-253 | after n undisturbed iterations exactly the first n entries have been handled |
| Backoff.WindowsGrow | services/worker/worker.py:255-276 | retry windows never shrink and stay within the larger of 50 ms and the configured maximum |
| Backoff.WindowsAreCappedPowers | services/worker/worker.py:552-576 | with an integer multiplier, truncating and capping at every step equals capping the exact power once |
| Backoff.TotalWaitIsBounded | services/worker/worker.py:510-578 | all pauses of one report together are bounded by the attempts and the largest window |
| Backoff.GrowthIsTruncated | services/worker/worker.py:570-576 | (supporting) a backoff grows by the multiplier less a fraction of a millisecond, up to the maximum |
| Backoff.ConfigureKeeps | services/worker/worker.py:255-276 | (supporting) settings that make sense are kept, others raised to the least that does |
| Cluster.ClusterRefinesOneService | common/design_b_routing.py:76-95 | whatever owner-affine nodes behind the router do, one service can do with the same actions: every operation gives the same answer, and every job, key and envelope is what its owner holds |
| OwnerNodes.NodesAreDisjoint | services/monolith/node.py:213-218 | over every run of the nodes, whatever their indexes forget, a node holds records, envelopes and queue entries of its own jobs only, so no two nodes hold the same job |
| OwnerNodes.AnswersRouteBack | services/job/servicer.py:159-168 | over every run, the owner of a submitted or assigned job is the node the request was sent to, so later requests about it reach the node that has it |
| Cluster.CallRefines | services/job/servicer.py:179-226 | a call at its home node answers as at the one service and leaves the two the same |
| Cluster.DequeueRefines | services/queue/servicer.py:70-74 | a dequeue at a node is a dequeue at the one service that takes the node's head |
| Routing.DesignBClientRouter.SubmitTarget | common/design_b_routing.py:81-88 | keyed submits go to the key's owner and leave the rotation alone; unkeyed ones advance it by one |
| Routing.DesignBClientRouter.JobTarget | common/design_b_routing.py:90-95 | job-scoped requests go to the job's owner; a blank identifier has no target |
| Routing.DesignBClientRouter.Create | common/design_b_routing.py:55-62 | blank names are dropped, an empty order is refused, the start is reduced into range also when negative |
| Routing.EveryNodeHasItsTurn | common/design_b_routing.py:69-74 | of any N unkeyed submits in a row every one of the N nodes gets exactly one |
| Routing.NamesAreTheNonBlank | common/design_b_routing.py:55-62 | (supporting) the nodes are the trimmed non-blank names in the order given |
| Pacing.WorkerLoop | common/loadgen_contracts.py:602-632 | each operation starts at the first clock reading at or past its due time and before the end of the phase, and no such reading is left unused before the worker stops |
| Pacing.WorkerIsPaced | common/loadgen_contracts.py:602-632 | one worker runs at most the duration over the interval, rounded up |
| Pacing.PhaseIsPaced | common/loadgen_contracts.py:577-652 | a phase runs at most concurrency times the duration times the rate over concurrency, rounded up |
| Pacing.IntervalMeetsRate | common/loadgen_contracts.py:648-652 | (supporting) all workers together at one worker's interval run at the rate |
| Pacing.RunPhase | common/loadgen_contracts.py:577-646 | every worker of the phase is on time and uses every chance, and the whole phase stays within its limit |
| ClientRetry.InvokeWithRetry | common/loadgen_contracts.py:1013-1038 | stops at the first attempt that succeeds, fails for good, or is the last, answers with that attempt, and waits within doubling capped windows |
| ClientRetry.WaitIsBounded | common/loadgen_contracts.py:1013-1038 | the waits of one call sum to at most 0.7 seconds |
| RequestMix.EveryWindowIsTheMix | common/loadgen_contracts.py:495-521 | in every window of as many picks as the weights sum to, each method appears exactly as often as its weight |
| RequestMix.RequestMixScheduler.NextMethod | common/loadgen_contracts.py:516-521 | all picks so far, the new one included, are what going round the shuffled list yields |

## Left out

- gRPC servers, channels, stubs, signals, configuration, logging, health checks and the manual client: plumbing. The branches for an upstream that is not configured go with them.
- Service restarts and durability: stores are in memory and a restart loses them.
- Liveness under permanent failures: there is no lease or requeue, so a job may stay QUEUED or RUNNING after a lost call.
- Direct callers of the internal services other than Gateway, Coordinator and worker: the whole-run theorems rest on this set of callers.
- Enqueue timestamps, actor names and worker identifiers of dequeues: they are written or logged and never read back.
- Record objects are values here, replaced in their map where the code updates their fields: ListJobRecords reads record objects after it has left the lock, and a change to one of them between the reads of a page is not modelled.
- Gateway.ListJobs hands its request through to ListJobRecords; across Design B nodes it asks one node only, so nothing is claimed about it there.
- Unicode beyond ASCII in lower-casing a job type and in page tokens; UUID, SHA-256 and UTF-8 are parameters.
- Floating-point rounding: rates, intervals and the retry multiplier are reals. Random jitter is any value within its window.
- The scheduler shared by the threads of a phase: RunPhase runs its workers one after the other with separate clocks, which suffices for counting; RequestMix covers the order of picks.
- Artifacts, CSV and JSON writers, plots, matrix aggregation and percentiles: input and output, and easy folds.
- ClusterRefinesOneService: a fetch is only matched by a dequeue of some entry, or of none, since the nodes keep separate queues; and the keys a node owns must fit under its index cap, and all keys under that of the one service, since separate indexes that overflow forget different keys. What the nodes hold and where answers lead (NodesAreDisjoint, AnswersRouteBack) needs neither.
- RetryIsIdempotent: the stores are otherwise quiet and a call's effect comes before the next call; with other handlers interleaved and calls landing late the same stages are those of DispatchedJobsMoveThroughStages, and AcceptedReportsAreFinal says what an acknowledgement is worth.
- DrainEmptiesTheQueue: timestamps are left open, and outputs are required to fit under the result cap, since the store refuses larger ones.
