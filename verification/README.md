# A verified model of the adversarial-robustness benchmark service

The service accepts benchmark jobs over HTTP, stores them in one table, hands them to workers
through a queue that may deliver twice, attacks a classifier with five attacks inside a small
epsilon ball, and publishes one result row per attack. This project models that behaviour in
Dafny and proves what a client and an operator may rely on.

## What is modelled

**The job protocol.** `Models.dfy` holds the two tables, their constraints and every statement
the service sends to the database. `Protocol.dfy` is the step system: any number of submitters,
cancellers and workers, each with a program counter, a queue with duplicate delivery, a clock and
the reaper, interleaved at commits. Any process can die between two steps and any worker can
raise. A claim, a cancel and a sweep are conditional updates; the commits that record an outcome
go through a possibly stale ORM object and write only the columns that differ from what that
object had loaded. `Invariants.dfy` and `Preservation.dfy` prove one inductive invariant;
`Lifecycle`, `Finality`, `Messages`, `Recovery`, `Delivery`, `Idempotency`, `Backpressure` and `Requests`
draw the conclusions for every state of every run, and `History` and `Witnesses` build runs that
show where a promise gives way.

**The code.** `Service.dfy`, `Execution.dfy` and `Deployment.dfy` are the functions of
`jobs.py`, `tasks.py`, `queue.py` and the reaper of `worker/main.py` in imperative form, over
tables held in fields. A ghost history ties each of their commits to one protocol step, starting
from any reachable state, so the run-level theorems hold of these tables.

**Pagination and its cursor.** `Listing.dfy` is the keyset query against a table that changes
between pages, with newest-first stated in the instants that `Calendar.dfy` counts; `Cursor.dfy` and
`Text.dfy` print and parse the cursor; `Fingerprint.dfy` prints and reads back the canonical JSON
(section 7 of RFC 8259) behind the request fingerprint; `Encodings.dfy` says what these texts look
like, character by character.

**The arithmetic.** `Attacks.dfy` and `Engine.dfy` are the attacks and the evaluation loops over
exact reals, with the network, its gradient, the random draws and the optimisers as arbitrary
functions; `AttackLaws.dfy` states what the attacks return with every constant written out;
`Scoring.dfy` is the headline score on the 1/10000 grid.

## Where the code and its documentation differ

- `tasks.py:48-50` says that importing the engine inside the function turns an import error into
  a failed job. The import precedes the `try` (`tasks.py:51-57`), so on the Redis queue the job stays
  `queued` with its entry consumed and its call returned: `Witnesses.AFailedImportCanStrand`.
- `tasks.py:3-6` says a job always ends in a terminal state. `Execution.ExecutionEndsTheJob` proves
  exactly when it does. The job stays `queued` if and only if the execution is lost before its claim:
  the import or the settings read raises, the process is killed, or an exception meets an except
  branch that raises or is killed itself. It stays `running` if and only if the execution is lost in
  one of these ways between claim and outcome. In every other case it ends. This is about an
  execution between whose steps no other process commits: a cancel before the claim or a sweep during
  the run settles the row first, which the theorems about runs cover. A job left `running` is failed
  by the reaper (`Recovery.DeadWorkersJobFails`). The promised explanation is there in every reachable
  state: `Messages.FailuresAreExplained`.
- A queued job can be left with nobody to act on it: not in the queue, with no call that has yet to
  finish enqueuing it or to record that it could not, and with no worker about to claim it or to record
  that it could not. `Delivery.NoJobIsStrandedExactly` proves that a run reaches such a state if and only
  if some step ends a queued job's last holder: a process dies, or an enqueue returns after its entry has
  been spent. `Delivery.StrandedStaysExactly` proves that the job then stays so exactly until it is
  cancelled or the queue delivers it once more; a row that was never enqueued cannot even be delivered
  (`Delivery.OrphanStaysQueued`).
- A terminal status is not final in general: a late worker turns the reaper's `failed` into
  `succeeded`, recording a failed enqueue turns `cancelled` into `failed`, and an exception after the
  success commit turns `succeeded` into `failed` (`Witnesses.ATerminalStatusCanChange`,
  `Witnesses.ACancelledJobCanFail`, `Witnesses.ASucceededJobCanFail`).
  `Finality.TerminalChangesExactlyWhenOverwritten` names the only three writes that do this, and
  `Finality.TerminalIsFinal` gives operating conditions under which none of them ever does.
- `max_active_jobs` is checked before the insert, so calls in flight can exceed it. With at most n
  calls in flight the limit is exceeded by at most n - 1 (`Backpressure.ActiveJobsAreBounded`), that
  many are attained for every limit and every n (`Backpressure.BoundIsAttained`), and hence the limit
  is respected exactly when calls are serial (`Backpressure.LimitHoldsExactlyWhenSerial`).

## Model

| member | source | states |
|---|---|---|
| `Preservation.StepKeepsInv` | src/service/jobs.py:115-387 | every step of every actor, a crash or an exception included, keeps the whole invariant (rows, results, calls, executions, cancels, sweeps), and no step moves a row backwards or changes its request |
| `Preservation.ReachableInv` | src/service/jobs.py:115-387 | the invariant holds in every state of every interleaving |
| `Preservation.RunEvolves` | src/service/jobs.py:312-351 | between any two moments of a run no row disappears, no request changes, no status rank drops and a claim time, once set, stays |
| `Preservation.FinaliseNeverCollides` | src/service/models.py:141-144 | a worker that has computed its rows finds none of its job's rows in the table, so the UNIQUE constraint on (job, attack) cannot refuse them |
| `Lifecycle.RankNeverDrops` | src/service/models.py:46-60 | over any stretch of any run the order queued, running, terminal is never reversed, `queued` is never re-entered, a running job is never cancelled and a terminal one stays terminal, despite the unconditional writes |
| `Lifecycle.TimestampsAreCoherent` | src/service/jobs.py:318-351 | in every reachable state the status decides which timestamps are set, a cancelled job never started, and no job finishes before it starts |
| `Lifecycle.EndsAreStamped` | src/service/jobs.py:312-351 | in any run a row that starts, is cancelled, succeeds or fails in a step carries exactly the time of that step and keeps its other columns, and one whose status does not change before its end is not written at all |
| `Lifecycle.RowsAppearQueued` | src/service/jobs.py:137-152 | a row appears in a run only by the insert of a call, queued, with that call's request, key, creation time and fingerprint and nothing else set |
| `Lifecycle.ClaimAndCancelExclude` | src/service/jobs.py:279-326 | over a whole run a job has at most one successful claim or one successful cancel, never both and never two |
| `Lifecycle.AtMostOneExecution` | src/service/worker/tasks.py:57-64 | however often the queue delivers, one execution at most gets past the claim, and none does when a cancel has succeeded |
| `Lifecycle.SucceededMeansComplete` | src/service/jobs.py:329-341 | in every reachable state a succeeded job has exactly one row per requested attack, in request order, the attacks are distinct, and reading its results returns that list |
| `Lifecycle.PublishedScoreIsTheRoundedMean` | src/service/jobs.py:390-399 | the headline score of a job whose results can be read is the half-up rounding of the mean over one stored accuracy per requested attack, in a division that is never by zero |
| `Lifecycle.ResultsNeverCollide` | src/service/models.py:141-144 | no finalising commit of any run is refused, so each one succeeds |
| `Lifecycle.PublishedResultsStay` | src/service/worker/tasks.py:92-96 | rows appear all at once and are never added to, changed or removed afterwards |
| `Lifecycle.ResultsReadIsComplete` | src/service/jobs.py:204-219 | a read that saw `succeeded` returns the complete list even when its second query runs later |
| `Finality.TerminalChangesExactlyWhenOverwritten` | src/service/jobs.py:335-351 | a terminal status changes in a step if and only if that step is one of the three ORM commits on that row under a stated, checkable guard |
| `Finality.LateWorkerOverwritesTheReaper` | src/service/jobs.py:335-341 | from any state in which a worker is about to finish a running job, waiting past timeout plus grace, sweeping and finishing turns `failed` into `succeeded` |
| `Finality.TerminalIsFinal` | src/service/worker/tasks.py:92-107 | when live workers report in time, a failed enqueue was neither delivered nor cancelled, and workers raise only between claim and outcome, a terminal row never changes in any column |
| `Messages.FailuresAreExplained` | src/service/worker/tasks.py:3-6 | in every reachable state a failed job has a message, the reaper's or one of at most 1000 characters, and a queued, running or cancelled job has none |
| `Messages.UnreadyResultsAreExplained` | src/service/jobs.py:204-219 | a read of results that are not there answers that there is no such job if and only if there is none, and otherwise the job's status, with an explanation if and only if it failed |
| `Messages.SuccessKeepsAMessageExactly` | src/service/jobs.py:335-341 | a success is committed with an old message if and only if the row is failed by then and was running when its worker loaded it |
| `Messages.DisciplinedSuccessesAreBare` | src/service/jobs.py:335-341 | under the three operating conditions a succeeded job never has a message |
| `Witnesses.ATerminalStatusCanChange` | src/service/jobs.py:335-341 | for all settings and requests there is a state, reached by enqueueing, delivering, claiming and sweeping one job, and a step from it that turns the failed job into a succeeded one |
| `Witnesses.ACancelledJobCanFail` | src/service/jobs.py:176-184 | for all settings and requests there is a reachable state in which recording a failed enqueue turns a cancelled job into a failed one |
| `Witnesses.ASucceededJobCanFail` | src/service/worker/tasks.py:92-107 | for all settings and requests there is a reachable state in which the except branch turns a succeeded job into a failed one |
| `Witnesses.AJobCanBeStranded` | src/service/jobs.py:151-185 | for all settings and requests there is a reachable state with a queued job that was never handed to the queue and is in nobody's custody |
| `Witnesses.AFailedImportCanStrand` | src/service/worker/tasks.py:48-57 | for all settings and requests there is a reachable state in which every call has returned and a queued job is stranded, after a worker consumed its only entry and could not import the engine |
| `Recovery.SweepIsExact` | src/service/jobs.py:354-387 | a sweep fails exactly the overdue rows, touches no other row or result, and repeating it at the same instant finds nothing and changes nothing |
| `Recovery.SweepStepReapsExactly` | src/service/jobs.py:368-383 | in any run a sweep fails a row, at the time of the sweep, if and only if it is running and older than timeout plus grace, and changes no other |
| `Recovery.NothingRunsForever` | src/service/worker/main.py:59-99 | while sweeps are at most one grace period apart, no job is running past its start plus timeout plus two grace periods |
| `Recovery.DeadWorkersJobFails` | src/service/worker/main.py:59-99 | the job of a worker that died after its claim and before any results, in the except branch too, is running or failed for ever after, and failed once timeout and two grace periods have passed with sweeps on time |
| `Recovery.PunctualJobIsNeverReaped` | src/service/jobs.py:354-387 | a job whose outcome is recorded by start plus timeout plus grace is not changed by any sweep, before or after |
| `Recovery.ClockIsMonotone` | src/service/jobs.py:364-367 | time and settings along a run, on which every deadline rests |
| `Delivery.NoJobIsStrandedExactly` | src/service/jobs.py:151-185 | in a run every queued job is with its unfinished call, in the queue or with a worker at every moment if and only if no step ends a last holder, through raising enqueues, repeated deliveries and cancels |
| `Delivery.StepStrandsExactly` | src/service/worker/tasks.py:51-64 | a step strands a job if and only if it ends the job's last holder: an API process that dies before its enqueue has returned or before it has recorded that it failed, an enqueue that returns with its entry spent, or a worker that dies before its claim or before recording that it could not claim |
| `Delivery.StepRescuesExactly` | src/service/queue.py:69-95 | a step ends the stranding of a job if and only if it cancels the job or delivers it once more |
| `Delivery.StrandedStaysExactly` | src/service/jobs.py:172-185 | from a moment at which a job is stranded it stays queued and with nobody up to a later moment if and only if it is neither cancelled nor redelivered in between |
| `Delivery.OrphanStaysQueued` | src/service/jobs.py:172-185 | a queued row never handed to the queue, whose call is gone, stays queued for the rest of the run unless it is cancelled, and then it is cancelled; no worker ever gets it |
| `Idempotency.OneRowPerKey` | src/service/models.py:76-82 | in every reachable state an idempotency key has at most one row |
| `Idempotency.CallsWithOneKeyAgree` | src/service/jobs.py:115-191 | any two calls with one key that return a job return the same job, whenever they return, and at most one of them is not a replay |
| `Idempotency.ReturnedJobIsTheOneAskedFor` | src/service/jobs.py:158-174 | with a collision-free fingerprint a call only ever returns a job made from exactly its own request and key |
| `Idempotency.HashedCanonicalTextIsFaithful` | src/service/jobs.py:81-93 | a collision-free hash of the canonical text separates any two different requests |
| `Idempotency.EnqueuedAtMostOnce` | src/service/jobs.py:176-177 | no job is handed to the queue twice in a run |
| `Idempotency.DifferentBodyIsRefused` | src/service/jobs.py:160-168 | a call whose key belongs to a different request never holds or returns a job, and none of its steps changes a table or the queue |
| `Backpressure.ActiveJobsAreBounded` | src/service/jobs.py:96-152 | with at most n calls in flight at any moment, the jobs that are queued or running never number more than the limit plus n - 1, hence never more than the limit itself when calls are serial |
| `Backpressure.BoundIsAttained` | src/service/jobs.py:96-152 | for every limit of at least one, every n of at least one and every list of limit plus n - 1 different ids there is a run with at most n calls in flight that ends with that many jobs queued or running |
| `Backpressure.LimitHoldsExactlyWhenSerial` | src/service/jobs.py:134-152 | every run with at most n calls in flight respects the limit if and only if n is at most one, or the limit is 0 (nothing is ever admitted), or there are no more identifiers than the limit |
| `Requests.StoredRequestsAreRunnable` | src/service/schemas.py:27-55 | whatever the table holds is a request the engine can run: one to five distinct names of the five, epsilon from 0.0001 to 0.1090, 1 to 200 iterations |
| `Models.ResultsOfAppended` | src/service/models.py:107-109 | appending one job's rows adds exactly those to that job's list and none to any other's |
| `Models.Truncated` | src/service/jobs.py:347-349 | a stored message is all of a short message and the first 1000 characters of a long one |
| `Service.JobService.constructor` | src/service/jobs.py:115-387 | the imperative service may be attached to the tables and queue of any reachable state |
| `Service.JobService.FlushOutcome` | src/service/jobs.py:335-351 | assigning three fields of a stale object and committing writes exactly the columns that differ from their loaded values |
| `Service.JobService.MarkSucceeded` | src/service/jobs.py:329-341 | result rows and status land together, exactly when no (job, attack) pair would occur twice, or not at all |
| `Service.JobService.MarkFailed` | src/service/jobs.py:344-351 | the failure columns are written over whatever the row holds, with the message truncated |
| `Service.JobService.Submission` | src/service/jobs.py:134-174 | which of capacity, insert, replay, key reuse and integrity error a call meets, each with its exact condition - it is refused for capacity if and only if the queued and running jobs reach the limit - and that only an insert changes the table |
| `Service.JobService.CreateJob` | src/service/jobs.py:115-191 | exactly when fewer jobs than the limit are queued or running, id and key are new and the numbers positive, a new row and its queue entry appear together; when the queue raises the row is failed at once with what it raised, or the call raises if that cannot be committed; otherwise tables and queue stay as they were, and a replay returns the row with the caller's key and fingerprint |
| `Service.JobService.CancelJob` | src/service/jobs.py:279-309 | cancels exactly a queued job, stamped with the time, also when the queue cannot be reached afterwards, removes its entries when it can, reports the status otherwise, and changes no other row |
| `Service.JobService.SweepStaleJobs` | src/service/jobs.py:354-387 | row by row: a running job whose start, timeout and grace have all passed is failed as presumed dead now, every other row stays, and the answer is the number of rows changed |
| `Execution.OnGridIsNearest` | src/service/models.py:131-134 | a stored column value is the nearest one to the reported value, halves away from zero |
| `Execution.RowsStoreReports` | src/service/worker/tasks.py:23-35 | a row carries the attack's name and runtime, and its accuracy, loss and norm columns each hold that metric to the nearest step |
| `Execution.LegalBudgetIsUsedUnshrunk` | src/benchmark/attacks.py:42-43 | a stored epsilon within the legal range reaches the attacks unclamped |
| `Execution.Benchmark` | src/service/worker/tasks.py:81-92 | for a stored job the engine fails only on an empty evaluation set; otherwise the rows are complete, in request order, within their columns' ranges, and each holds the metrics of the attack of its own name |
| `Execution.RunBenchmarkJob` | src/service/worker/tasks.py:38-113 | the new tables, the fate of the worker and the answer for every state the tables are in, every place an exception or a kill may strike, and an except branch that works, raises or is killed |
| `Execution.ExecutionEndsTheJob` | src/service/worker/tasks.py:1-7 | of a job found queued: it stays queued if and only if the execution is lost before its claim, stays running if and only if it is lost between claim and outcome, and is terminal if and only if neither happens; a failure carries the truncated message and no other row changes |
| `Execution.FailureNamesItsException` | src/service/worker/tasks.py:97-111 | a recorded failure carries the text of the exception that struck, or the engine's own when the evaluation set was empty |
| `Execution.FinishedExecutionIsPublished` | src/service/worker/tasks.py:92-96 | after a finished execution a client reads one correct row per requested attack, in request order |
| `Deployment.CreateJobInline` | src/service/queue.py:105-116 | on the inline backend a job returned by the call that created it has ended; a created job has ended if and only if its execution was not lost, or what escaped it could be recorded by this call; a kill ends the call, too |
| `Deployment.Reap` | src/service/worker/main.py:59-99 | after the start-up sweep and any rounds, some of whose sweeps raise, no job has run longer than timeout, grace and the time since the last sweep that went through - at most one more grace period when no sweep raises and no wait is longer than that |
| `Listing.BelowIsTotalOrder` | src/service/jobs.py:261-266 | the cursor comparison is a strict total order on (created_at, id) |
| `Listing.BelowIsOlder` | src/service/jobs.py:261-266 | a key is below another if and only if its instant, counted in microseconds of the Gregorian calendar, is smaller, or equal with a smaller id |
| `Calendar.DaysBeforeYearIsGregorian` | src/service/jobs.py:261-266 | the day count behind that instant is 365 a year and a leap day every fourth year, save for centuries not divisible by 400 |
| `Listing.PageIsNewest` | src/service/jobs.py:268-273 | a page holds at most `limit` keys, the newest below the cursor in the order of the query; a page with a successor is full and everything it leaves out lies below its last row; a page without one leaves out nothing |
| `Listing.PageIsNewestFirst` | src/service/jobs.py:245-273 | a page shows rows that were asked for, later rows older than earlier ones or equally old with a smaller id, at most `limit`; without a next page all of them, and with one exactly `limit`, every job left out being older than the last row shown, and the next cursor reading back as that row |
| `Listing.OnlyMalformedCursorsAreRefused` | src/service/jobs.py:236-266 | a request is refused if and only if it carries a cursor that cannot be read, and the cursor of no row is refused |
| `Listing.CursorSelectsBelow` | src/service/jobs.py:257-266 | the cursor a page ends with decodes to a query for exactly the keys below that page's last row |
| `Listing.WalkDescends` | src/service/jobs.py:245-273 | whatever happens to the table between pages, a walk shows ever older jobs, repeats none, and shows only jobs that existed with the requested status when a page was read |
| `Listing.CompleteWalkMissesNothing` | src/service/jobs.py:245-273 | a finished walk shows exactly once every job that existed and matched at every page read |
| `Listing.FixedWalkIsTheWholeList` | src/service/jobs.py:245-273 | on a table that does not change the pages concatenate to exactly the jobs with the requested status, newest first |
| `Listing.FixedWalkIsShort` | src/service/jobs.py:268-273 | on such a table a walk of n pages that is not finished has shown n times `limit` different jobs, so it terminates |
| `Listing.WalkDuringARun` | src/service/routers/jobs.py:73-81 | while the whole protocol keeps running, a finished unfiltered walk shows every job that existed at its first page exactly once |
| `Cursor.IsoRoundTrip` | src/service/jobs.py:229-232 | the printed timestamp, with or without microseconds, reads back as itself |
| `Cursor.Base64RoundTrip` | src/service/jobs.py:233 | URL-safe base64 with padding (section 5 of RFC 4648) of any byte string decodes to it |
| `Encodings.Base64IsPositional` | src/service/jobs.py:233 | every character of the encoding stands for its six bits in the URL-safe alphabet, most significant first, or is the padding of a last short group |
| `Cursor.CursorRoundTrip` | src/service/jobs.py:222-242 | decoding a row's cursor gives that row's UTC timestamp and id, whether the driver returned the timestamp naive or aware |
| `Encodings.CursorText` | src/service/jobs.py:229-233 | what a cursor carries is the printed timestamp, a bar and 32 hexadecimal digits |
| `Encodings.PaddedIsPositional` | src/service/jobs.py:229-233 | a printed field has the lower-case digit of each power of its base in that power's place |
| `Cursor.CursorIsInjective` | src/service/jobs.py:222-233 | two rows share a cursor if and only if they share the sort key |
| `Fingerprint.ReadEscaped` | src/service/jobs.py:83-92 | every JSON escape is self-delimiting, surrogate pairs included |
| `Encodings.EscapesAreShort` | src/service/jobs.py:83-92 | the text is printable ASCII: one character for a printable one, two for the seven short escapes, six or twelve for the others |
| `Fingerprint.CanonicalRoundTrip` | src/service/jobs.py:81-93 | the request can be read back from its canonical text, for arbitrary Unicode strings, any attack list and any iteration count |
| `Fingerprint.FingerprintIsInjective` | src/service/jobs.py:81-93 | two requests have one canonical text if and only if they agree in model, attacks and their order, four-decimal epsilon and iterations |
| `Attacks.ClipIsProjection` | src/benchmark/attacks.py:31-39 | `_clip` is the metric projection onto ball and box: feasible, and strictly nearer than any other feasible value |
| `Attacks.FgsmFollowsTheGradient` | src/benchmark/attacks.py:46-56 | a pixel moves by min(epsilon, 0.109) up a positive gradient and down a negative one, no further than 1 and 0, and stays where the gradient is zero |
| `Attacks.Pgd` | src/benchmark/attacks.py:59-90 | the loop computes the last iterate of the projected signed-gradient recursion |
| `Attacks.PgdIterateIsFeasible` | src/benchmark/attacks.py:80-90 | every PGD iterate is a valid image inside the ball |
| `Attacks.AlphaCoversTheBall` | src/benchmark/attacks.py:70-76 | step size times steps is 2.5 epsilon for every iteration count |
| `Attacks.PgdTraversesTheBall` | src/benchmark/attacks.py:70-90 | for every start and iteration count, a pixel whose gradient is positive at every iterate ends at min(1, x + e), one whose gradient is negative at max(0, x - e), and one whose gradient is zero where it started |
| `Attacks.PgdEqualsFgsm` | src/benchmark/attacks.py:46-90 | when every pixel's gradient is positive at the input and at every iterate, or negative at all of them, PGD returns what FGSM returns |
| `AttackLaws.PgdEndsItsTrace` | src/benchmark/attacks.py:59-90 | any sequence that starts at the projected noise and takes max(1, iterations) projected steps of 2.5 e over their number up the gradient ends at what PGD returns |
| `Attacks.CarliniWagner` | src/benchmark/attacks.py:93-136 | the loop computes the projected image of the last variable of an optimiser that sees its whole history, the input, the labels and the budget |
| `AttackLaws.CwEndsItsTrace` | src/benchmark/attacks.py:93-136 | any sequence of variables that starts at zero and follows the optimiser for max(1, iterations) steps ends at a variable whose projected tanh image is what the attack returns |
| `AttackLaws.LbfgsIsTheProjectedIterate` | src/benchmark/attacks.py:139-179 | the result is the optimiser's iterate, clipped into ball and box |
| `Attacks.FirstArgMax` | src/benchmark/attacks.py:205-211 | the first index of the largest loss: nothing is larger, everything before is smaller |
| `Attacks.KeepStrongest` | src/benchmark/attacks.py:205-211 | the best-of loop returns the candidate with the largest loss, the earliest on a tie |
| `Attacks.EveryAttackIsFeasible` | src/benchmark/attacks.py:31-211 | whatever the oracles answer, every attack returns images in [0, 1] within min(epsilon, 0.109) of the input |
| `Attacks.EnsembleDominatesOnABatch` | src/benchmark/attacks.py:199-211 | on the same batch and draws the ensemble's loss is at least that of PGD, C&W and L-BFGS alone |
| `AttackLaws.EnsembleIsTheFirstStrongest` | src/benchmark/attacks.py:182-211 | the ensemble returns the PGD, C&W or L-BFGS batch, whichever has the largest loss, the earliest of these on a tie |
| `Engine.WorstIsTheMaximum` | src/benchmark/engine.py:80-81 | the running maximum is the largest deviation of any evaluated sample |
| `Engine.TallyBatches` | src/benchmark/engine.py:56-81 | the accumulation loop computes the batch-by-batch tally |
| `Engine.AccumulationIgnoresBatching` | src/benchmark/engine.py:56-81 | batch-by-batch accumulation equals the tally of the flat list of samples |
| `Engine.AnyTwoSplitsAgree` | src/benchmark/engine.py:56-95 | two splits of the same samples into batches give the same metrics |
| `Engine.MetricsArePerSample` | src/benchmark/engine.py:61-95 | samples is the number of samples, accuracy times samples the number of those classified as their target, mean loss times samples the summed loss, the perturbation is attained and exceeded by no sample; there is no report exactly when there are no samples |
| `Engine.EvaluateAttack` | src/benchmark/engine.py:44-95 | the report under a published name is that of this very attack on the evaluation set, or the error for an unknown name or an empty set |
| `Engine.EvaluationsAreNamesakes` | src/benchmark/attacks.py:218-224 | a report called fgsm, pgd, cw, lbfgs or ensemble is the tally of the samples that FGSM, PGD, C&W, L-BFGS or the ensemble made, batch by batch |
| `Engine.EvaluationIsPublishable` | src/benchmark/engine.py:86-95 | accuracy is in [0, 1], the perturbation is within the clamped budget and below 0.11 |
| `Engine.CollectIsInOrder` | src/benchmark/engine.py:119-141 | the attack loop yields all results in order, or the error of the first attack that raises |
| `Engine.RunBenchmark` | src/benchmark/engine.py:98-141 | over exact reals the epsilon violation never fires; the run succeeds if and only if every name is known and the set is not empty, and then reports each attack once, in order, each from the images of the attack it names |
| `Engine.EnsembleReportsTheLargestLoss` | src/benchmark/engine.py:61-95 | run on the same loader with the same draws and iterations, the ensemble's mean NLL is at least that of each member alone |
| `Scoring.ScoreIsTheRoundedMean` | src/service/jobs.py:390-399 | a grid value is the score if and only if it is the half-up rounding of the exact mean: above the mean less half a step, and at most half a step above the mean |
| `Scoring.ScoreIsBetweenExtremes` | src/service/jobs.py:390-399 | the score lies between the smallest and the largest value |
| `Scoring.ScoreIsOrderFree` | src/service/jobs.py:390-399 | the score does not depend on the order of the results |
| `Scoring.ScoreIsMonotone` | src/service/jobs.py:390-399 | raising any value never lowers the score |

## Left out

- Service.JobService.CreateJob: and the other methods of `Service`, `Execution` and `Deployment` run one call at a time from an arbitrary reachable state; interleavings of their steps are covered by `Protocol` and the theorems about runs.
- Execution.OnGridIsNearest: models storage of a real in a NUMERIC column; an overflow of the mean NLL column, which would raise at the commit, is not modelled beyond an exception during the run.
- Cursor.CursorRoundTrip: the decoder accepts the two layouts `isoformat` prints for a UTC value and 32 hexadecimal digits; other spellings `datetime.fromisoformat` and `uuid.UUID` also accept, and non-ASCII bytes, count as malformed here.
- Scoring.ScoreIsTheRoundedMean: the 28-digit precision of Decimal division is not modelled; the mean is exact.
- Listing.PageIsNewest: a page carries the sort keys of its rows rather than the rows.
- Idempotency.HashedCanonicalTextIsFaithful: SHA-256 itself is not modelled; a collision-free function stands for it.
- Floating point, NaN losses and rounding in the attacks and the engine: everything is over exact reals.
- PyTorch autograd, Adam, L-BFGS, tanh, log-softmax and the networks: arbitrary functions, fresh for every call of an attack but sharing one network, so nothing is assumed about them.
- A commit is one atomic step, and the time a statement writes is the time of that step; SQLAlchemy, PostgreSQL, SQLite, Redis and RQ internals are not modelled.
- Deployment.Reap: a start-up sweep that raises ends the worker process before its first round and is not modelled; `session.close()` never raises.
- Membership of the model name in the catalogue, and deployment limits below those of the schema.
- The lazily filled connection of `RedisQueue`, the process-wide queue singleton, `ping`, and the choice of worker class.
- Model loading, weights, the dataset, the compiled extra attacks and the progress callback.
- HTTP routers, middleware, error envelopes, authentication, configuration, logging, request ids, migrations and scripts; only the page limit of at least one is kept.
