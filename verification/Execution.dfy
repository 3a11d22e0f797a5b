/**
 * src/service/worker/tasks.py: one execution of a delivered job, from the claim through the
 * benchmark to the commit of its outcome, with every place where an exception can strike.
 */
module Execution {
  import opened Prelude
  import opened Fingerprint
  import opened Attacks
  import opened Engine
  import opened Models
  import opened Protocol
  import opened Invariants
  import opened Preservation
  import opened History
  import opened Service
  import Requests

  // ------------------------------------------------------------------- result rows

  /** A NUMERIC column with `scale` steps to the unit stores the nearest step, halves away from zero. */
  function OnGrid(x: real, scale: int): int {
    if x >= 0.0 then (x * scale as real + 0.5).Floor else -((0.5 - x * scale as real).Floor)
  }

  lemma Scaled(x: real, y: real, k: real)
    requires x <= y && k >= 0.0
    ensures x * k <= y * k
  {
  }

  lemma OnGridIsNearest(x: real, scale: int)
    requires scale > 0
    ensures Abs(OnGrid(x, scale) as real - x * scale as real) <= 0.5
    ensures x >= 0.0 ==> 0 <= OnGrid(x, scale) && x * scale as real - OnGrid(x, scale) as real < 0.5
    ensures x < 0.0 ==> OnGrid(x, scale) as real - x * scale as real < 0.5
    ensures forall n: nat | x <= n as real :: OnGrid(x, scale) <= n * scale
  {
    forall n: nat | x <= n as real ensures OnGrid(x, scale) <= n * scale {
      Scaled(x, n as real, scale as real);
      assert (n * scale) as real == n as real * scale as real;
    }
    if x >= 0.0 {
      Scaled(0.0, x, scale as real);
    }
  }

  /** A report whose columns can be stored: no negative fraction, no negative norm. */
  ghost predicate Storable(r: AttackResult) {
    r.robustAccuracy >= 0.0 && r.perturbationNorm >= 0.0
  }

  function ResultRow(id: JobId, r: AttackResult): JobResult
    requires Storable(r)
  {
    OnGridIsNearest(r.robustAccuracy, 10000);
    OnGridIsNearest(r.perturbationNorm, 1000000);
    JobResult(id, r.attackName, OnGrid(r.robustAccuracy, 10000), OnGrid(r.meanNll, 1000000),
              OnGrid(r.perturbationNorm, 1000000), r.runtimeMs)
  }

  /** `row` is the report `r`, each column to the nearest step. */
  ghost predicate Stores(row: JobResult, r: AttackResult) {
    row.attackName == r.attackName && row.runtimeMs == r.runtimeMs
    && Abs(row.robustAccuracy as real - r.robustAccuracy * 10000.0) <= 0.5
    && Abs(row.meanNll as real - r.meanNll * 1000000.0) <= 0.5
    && Abs(row.perturbationNorm as real - r.perturbationNorm * 1000000.0) <= 0.5
  }

  lemma RowsStoreReports(id: JobId, r: AttackResult)
    requires Storable(r)
    ensures Stores(ResultRow(id, r), r) && ResultRow(id, r).jobId == id
  {
    OnGridIsNearest(r.robustAccuracy, 10000);
    OnGridIsNearest(r.meanNll, 1000000);
    OnGridIsNearest(r.perturbationNorm, 1000000);
  }

  function BuildResultRows(id: JobId, rs: seq<AttackResult>): (rows: seq<JobResult>)
    requires forall n | 0 <= n < |rs| :: Storable(rs[n])
    ensures |rows| == |rs| && forall n | 0 <= n < |rs| :: rows[n] == ResultRow(id, rs[n])
  {
    seq(|rs|, n requires 0 <= n < |rs| => ResultRow(id, rs[n]))
  }

  function Budget(p: Payload): real {
    p.epsilon as real / 10000.0
  }

  /** The requested budget reaches the attacks as it was stored: a legal one is not clamped. */
  lemma LegalBudgetIsUsedUnshrunk(p: Payload)
    requires ValidRequest(p)
    ensures SafeEpsilon(Budget(p)) * 10000.0 == p.epsilon as real
  {
  }

  /** The row for one attack of a job: the stored form of the right report, within its columns' ranges. */
  ghost predicate IsRowFor(
    row: JobResult, id: JobId, name: string, p: Payload, o: Calls, loader: seq<LabelledBatch>)
    requires ValidLoader(loader)
  {
    row.jobId == id && row.attackName == name && row.robustAccuracy <= 10000 && row.perturbationNorm <= 110000
    && match Evaluation(o, name, loader, Budget(p), p.maxIterations)
       case Ok(r) => Stores(row, r) && IsNamesake(o, r, name, loader, Budget(p), p.maxIterations)
       case Err(_) => false
  }

  lemma PublishableRow(
    id: JobId, name: string, p: Payload, o: Calls, loader: seq<LabelledBatch>, r: AttackResult)
    requires ValidLoader(loader) && Reported(o, r, name, loader, Budget(p), p.maxIterations)
    ensures Storable(r) && IsRowFor(ResultRow(id, r), id, name, p, o, loader)
  {
    EvaluationsAreNamesakes(o, r, name, loader, Budget(p), p.maxIterations);
    RowsStoreReports(id, r);
    OnGridIsNearest(r.robustAccuracy, 10000);
    OnGridIsNearest(r.perturbationNorm, 1000000);
    assert (r.perturbationNorm * 1000000.0 + 0.5).Floor <= 110000;
  }

  // ---------------------------------------------------------------------- one execution

  /** Before the claim commits; after it and before the outcome commits; after that. */
  datatype Point = AtClaim | AtRun | AtEnd

  /** What goes wrong outside the except branch, if anything does. */
  datatype Fault = Clean | ImportFails | Raises(at: Point, message: string) | Killed(at: Point)

  /** Whether the except branch itself gets to commit: the database may be gone, or the process. */
  datatype Handler = HandlerWorks | HandlerRaises | HandlerKilled

  /** `Escaped`: an exception leaves the call.  `Vanished`: the process is gone and nothing returns. */
  datatype Summary = Escaped | Vanished | SkippedJob | Finished(attacks: nat) | Failed(message: string)

  ghost predicate WorkerAt(s: JobService, w: nat, me: Worker)
    reads s
  {
    s.run.Valid() && w in s.World().workers && s.World().workers[w] == me
  }

  /** The queue hands the job over; an at-least-once queue may keep the entry. */
  method Take(s: JobService, id: JobId, consumed: bool) returns (ghost w: nat)
    requires s.Valid() && if consumed then id in s.entries else id in s.World().pushed
    modifies s`entries, s`run
    ensures s.Valid() && Extends(old(s.run), s.run) && w !in old(s.World()).workers
    ensures s.World().submitters == old(s.World()).submitters
    ensures s.entries == if consumed then old(s.entries) - multiset{id} else old(s.entries)
    ensures WorkerAt(s, w, Worker(id, Delivered, false))
  {
    w := Above(s.World().workers.Keys);
    if consumed {
      s.entries := s.entries - multiset{id};
    }
    s.Advance(Deliver(w, id, consumed));
  }

  method ClaimAndLoad(s: JobService, id: JobId, ghost w: nat) returns (job: Option<Job>)
    requires s.Valid() && WorkerAt(s, w, Worker(id, Delivered, false))
    modifies s`jobs, s`run
    ensures s.Valid() && Extends(old(s.run), s.run)
    ensures s.World().submitters == old(s.World()).submitters
    ensures s.Db() == ClaimJob(old(s.Db()), id, s.clock)
    ensures job == if IsQueued(old(s.Db()), id) then Some(s.jobs[id]) else None
    ensures job.Some? ==> WorkerAt(s, w, Worker(id, Loaded(job.value), true))
    ensures job.None? ==> WorkerAt(s, w, Worker(id, Skipped, false))
  {
    job := s.MarkRunning(id);
    s.Advance(WorkerDoes(w, Claim));
    if job.Some? {
      s.Advance(WorkerDoes(w, Load));
    }
  }

  /** The attacks of a stored job are in the catalogue and its budget is positive. */
  lemma StoredJobIsRunnable(s: JobService, id: JobId)
    requires s.Valid() && id in s.jobs
    ensures Requests.Runnable(s.jobs[id].payload)
    ensures forall name | name in s.jobs[id].payload.attacks :: GetAttack(name).Some?
  {
    Requests.ReachableRequests(s.run, |s.run.states| - 1);
    assert s.jobs[id].payload == s.World().db.jobs[id].payload;
  }

  /** One row per requested attack, in request order, each the stored form of the right report. */
  ghost predicate RowsFor(rows: seq<JobResult>, id: JobId, p: Payload, o: Session, loader: seq<LabelledBatch>)
    requires ValidLoader(loader)
  {
    Complete(rows, id, p.attacks) && forall n | 0 <= n < |rows| :: IsRowFor(rows[n], id, p.attacks[n], p, o(n), loader)
  }

  /** run_benchmark and _build_result_rows; no table is touched. */
  method Benchmark(id: JobId, p: Payload, o: Session, loader: seq<LabelledBatch>)
    returns (r: Result<seq<JobResult>, EngineError>)
    requires ValidLoader(loader) && Requests.Runnable(p) && forall name | name in p.attacks :: GetAttack(name).Some?
    ensures if loader == [] then r == Err(EmptyEvaluationSet) else r.Ok?
    ensures r.Ok? ==> RowsFor(r.value, id, p, o, loader)
  {
    var answer := RunBenchmark(o, loader, p.attacks, Budget(p), p.maxIterations);
    if answer.Err? {
      return Err(answer.error);
    }
    forall n | 0 <= n < |p.attacks|
      ensures Storable(answer.value[n]) && IsRowFor(ResultRow(id, answer.value[n]), id, p.attacks[n], p, o(n), loader)
    {
      PublishableRow(id, p.attacks[n], p, o(n), loader, answer.value[n]);
    }
    return Ok(BuildResultRows(id, answer.value));
  }

  /** The benchmark has produced a complete set of rows, and no UNIQUE constraint can refuse them. */
  ghost method Deliverable(s: JobService, id: JobId, job: Job, rows: seq<JobResult>, w: nat)
    requires s.Valid() && WorkerAt(s, w, Worker(id, Loaded(job), true)) && Complete(rows, id, job.payload.attacks)
    modifies s`run
    ensures s.Valid() && Extends(old(s.run), s.run) && WorkerAt(s, w, Worker(id, Computed(job, rows), true))
    ensures s.World().submitters == old(s.World()).submitters
    ensures ResultsInsertable(s.results, rows)
  {
    s.Advance(WorkerDoes(w, Compute(rows)));
    ReachableInv(s.run, |s.run.states| - 1);
    FinaliseNeverCollides(s.World(), w);
  }

  /** mark_succeeded */
  method Finish(s: JobService, id: JobId, job: Job, rows: seq<JobResult>, ghost w: nat)
    requires s.Valid() && WorkerAt(s, w, Worker(id, Loaded(job), true)) && id in s.jobs
    requires Complete(rows, id, job.payload.attacks)
    modifies s`jobs, s`results, s`run
    ensures s.Valid() && Extends(old(s.run), s.run)
    ensures s.World().submitters == old(s.World()).submitters
    ensures s.Db() == Models.MarkSucceeded(old(s.Db()), id, job, rows, s.clock)
    ensures WorkerAt(s, w, Worker(id, Finalised, true))
  {
    Deliverable(s, id, job, rows, w);
    var committed := s.MarkSucceeded(id, job, rows);
    s.Advance(WorkerDoes(w, Finalise));
  }

  ghost predicate CanRaise(me: Worker) {
    me.pc.Delivered? || me.pc.Skipped? || me.Working() || me.pc.Finalised?
  }

  ghost method EnterHandler(s: JobService, id: JobId, w: nat, me: Worker)
    requires s.Valid() && WorkerAt(s, w, me) && me.jobId == id && CanRaise(me)
    modifies s`run
    ensures s.Valid() && Extends(old(s.run), s.run)
    ensures s.World().submitters == old(s.World()).submitters
    ensures WorkerAt(s, w, me.(pc := if id in s.jobs then HandlerLoaded(s.jobs[id]) else Ended))
  {
    s.Advance(WorkerDoes(w, Raise));
    s.Advance(WorkerDoes(w, HandlerLoad));
  }

  /** The worker is lost with its exception unhandled. */
  ghost method FailInHandler(s: JobService, w: nat, me: Worker)
    requires s.Valid() && WorkerAt(s, w, me) && CanRaise(me)
    modifies s`run
    ensures s.Valid() && Extends(old(s.run), s.run)
    ensures s.World().submitters == old(s.World()).submitters
    ensures WorkerAt(s, w, me.(pc := Lost))
  {
    s.Advance(WorkerDoes(w, Raise));
    s.Advance(WorkerDoes(w, WorkerDies));
  }

  /** What the except branch answers to an exception. */
  function Answer(message: string, handler: Handler): Summary {
    match handler
    case HandlerWorks => Failed(message)
    case HandlerRaises => Escaped
    case HandlerKilled => Vanished
  }

  /** The row, if there is one, is failed through a freshly loaded object. */
  ghost function FailedWhateverItIs(db: Database, id: JobId, message: string, now: int): Database {
    if id in db.jobs then Models.MarkFailed(db, id, db.jobs[id], message, now) else db
  }

  /** The tables after the except branch. */
  ghost function Handled(db: Database, id: JobId, message: string, now: int, handler: Handler): Database {
    if handler.HandlerWorks? then FailedWhateverItIs(db, id, message, now) else db
  }

  /** The except branch: roll back, look the job up again, and fail it whatever it has become. */
  method Handle(s: JobService, id: JobId, message: string, handler: Handler, ghost w: nat, ghost me: Worker)
    returns (summary: Summary)
    requires s.Valid() && WorkerAt(s, w, me) && me.jobId == id && CanRaise(me)
    modifies s`jobs, s`run
    ensures s.Valid() && Extends(old(s.run), s.run)
    ensures s.World().submitters == old(s.World()).submitters
    ensures s.Db() == Handled(old(s.Db()), id, message, s.clock, handler) && summary == Answer(message, handler)
    ensures WorkerAt(s, w, me.(pc := if handler.HandlerWorks? then Ended else Lost))
  {
    if handler.HandlerWorks? {
      EnterHandler(s, id, w, me);
      if id in s.jobs {
        s.MarkFailed(id, s.jobs[id], message);
        s.Advance(WorkerDoes(w, HandlerMarkFailed(message)));
      }
    } else {
      FailInHandler(s, w, me);
    }
    return Answer(message, handler);
  }

  const EMPTY_SET_FAILURE := "RuntimeError: Evaluation set was empty"

  /** `after` is `before` with the job succeeded and a full set of correct result rows. */
  ghost predicate Published(
    before: Database, after: Database, id: JobId, job: Job, o: Session, loader: seq<LabelledBatch>, now: int)
    requires ValidLoader(loader) && id in before.jobs
  {
    exists rows :: RowsFor(rows, id, job.payload, o, loader)
        && after == Models.MarkSucceeded(before, id, job, rows, now)
  }

  /** The text of the exception that ends the run of a claimed job. */
  function RunFailure(fault: Fault): string {
    if fault.Raises? && fault.at.AtRun? then fault.message else EMPTY_SET_FAILURE
  }

  /** What follows the commit of a success, or a skipped job. */
  ghost predicate Concluded(
    done: Database, after: Database, id: JobId, answer: Summary, now: int, fault: Fault, handler: Handler,
    summary: Summary)
  {
    if fault.Raises? && fault.at.AtEnd? then
      summary == Answer(fault.message, handler) && after == Handled(done, id, fault.message, now, handler)
    else if fault == Killed(AtEnd) then summary == Vanished && after == done
    else summary == answer && after == done
  }

  /** How a claimed job ends, and what its execution answers. */
  ghost predicate Outcome(
    before: Database, after: Database, id: JobId, job: Job, o: Session, loader: seq<LabelledBatch>, now: int,
    fault: Fault, handler: Handler, summary: Summary)
    requires ValidLoader(loader) && id in before.jobs
  {
    if fault == Killed(AtRun) then summary == Vanished && after == before
    else if (fault.Raises? && fault.at.AtRun?) || loader == [] then
      summary == Answer(RunFailure(fault), handler) && after == Handled(before, id, RunFailure(fault), now, handler)
    else
      exists done :: Published(before, done, id, job, o, loader, now)
                     && Concluded(done, after, id, Finished(|job.payload.attacks|), now, fault, handler, summary)
  }

  ghost method Die(s: JobService, w: nat, me: Worker)
    requires s.Valid() && WorkerAt(s, w, me) && !me.pc.Ended? && !me.pc.Lost?
    modifies s`run
    ensures s.Valid() && Extends(old(s.run), s.run)
    ensures s.World().submitters == old(s.World()).submitters
    ensures WorkerAt(s, w, me.(pc := Lost))
  {
    s.Advance(WorkerDoes(w, WorkerDies));
  }

  /** The execution is over: it returned, or its process or its exception is gone. */
  ghost predicate Over(s: JobService, w: nat, id: JobId, summary: Summary)
    reads s
  {
    s.run.Valid() && w in s.World().workers && s.World().workers[w].jobId == id
    && s.World().workers[w].pc == if summary.Escaped? || summary.Vanished? then Lost else Ended
  }

  /** What comes after the success, or after a job that could not be claimed: logging, and the return. */
  method Conclude(
    s: JobService, id: JobId, answer: Summary, fault: Fault, handler: Handler, ghost w: nat, ghost me: Worker)
    returns (summary: Summary)
    requires s.Valid() && WorkerAt(s, w, me) && me.jobId == id && (me.pc.Finalised? || me.pc.Skipped?)
    requires !answer.Escaped? && !answer.Vanished?
    modifies s`jobs, s`run
    ensures s.Valid() && Extends(old(s.run), s.run)
    ensures s.World().submitters == old(s.World()).submitters
    ensures Over(s, w, id, summary)
    ensures Concluded(old(s.Db()), s.Db(), id, answer, s.clock, fault, handler, summary)
  {
    if fault.Raises? && fault.at.AtEnd? {
      summary := Handle(s, id, fault.message, handler, w, me);
    } else if fault == Killed(AtEnd) {
      Die(s, w, me);
      summary := Vanished;
    } else {
      s.Advance(WorkerDoes(w, Return));
      summary := answer;
    }
  }

  /** The outcome of a computed benchmark: the commit of the success and what follows it. */
  method Succeed(
    s: JobService, id: JobId, job: Job, rows: seq<JobResult>, fault: Fault, handler: Handler, ghost w: nat,
    ghost o: Session, ghost loader: seq<LabelledBatch>)
    returns (summary: Summary)
    requires s.Valid() && WorkerAt(s, w, Worker(id, Loaded(job), true)) && id in s.jobs
    requires ValidLoader(loader) && RowsFor(rows, id, job.payload, o, loader)
    modifies s`jobs, s`results, s`run
    ensures s.Valid() && Extends(old(s.run), s.run)
    ensures s.World().submitters == old(s.World()).submitters
    ensures Over(s, w, id, summary)
    ensures exists done :: Published(old(s.Db()), done, id, job, o, loader, s.clock)
                           && Concluded(done, s.Db(), id, Finished(|job.payload.attacks|), s.clock, fault, handler,
                               summary)
  {
    Finish(s, id, job, rows, w);
    ghost var done := s.Db();
    assert Published(old(s.Db()), done, id, job, o, loader, s.clock);
    summary := Conclude(s, id, Finished(|rows|), fault, handler, w, Worker(id, Finalised, true));
  }

  /** Everything between the claim and the outcome of a claimed job. */
  method Execute(
    s: JobService, id: JobId, job: Job, o: Session, loader: seq<LabelledBatch>, elapsed: nat, fault: Fault,
    handler: Handler, ghost w: nat)
    returns (summary: Summary)
    requires s.Valid() && WorkerAt(s, w, Worker(id, Loaded(job), true)) && id in s.jobs && job == s.jobs[id]
    requires ValidLoader(loader)
    modifies s`jobs, s`results, s`clock, s`run
    ensures s.Valid() && Extends(old(s.run), s.run) && s.clock == old(s.clock) + elapsed
    ensures s.World().submitters == old(s.World()).submitters
    ensures Over(s, w, id, summary)
    ensures Outcome(old(s.Db()), s.Db(), id, job, o, loader, s.clock, fault, handler, summary)
  {
    s.Wait(elapsed);
    if fault == Killed(AtRun) {
      Die(s, w, Worker(id, Loaded(job), true));
      return Vanished;
    }
    StoredJobIsRunnable(s, id);
    var rows := Benchmark(id, job.payload, o, loader);
    if (fault.Raises? && fault.at.AtRun?) || rows.Err? {
      summary := Handle(s, id, RunFailure(fault), handler, w, Worker(id, Loaded(job), true));
    } else {
      summary := Succeed(s, id, job, rows.value, fault, handler, w, o, loader);
    }
  }

  /** What an execution does to the tables, whatever state it finds them in. */
  ghost predicate Executed(
    before: Database, after: Database, id: JobId, o: Session, loader: seq<LabelledBatch>, start: int, now: int,
    fault: Fault, handler: Handler, summary: Summary)
    requires ValidLoader(loader)
  {
    if fault.ImportFails? then summary == Escaped && after == before
    else if fault == Killed(AtClaim) then summary == Vanished && after == before
    else if fault.Raises? && fault.at.AtClaim? then
      summary == Answer(fault.message, handler) && after == Handled(before, id, fault.message, start, handler)
    else if IsQueued(before, id) then
      var claimed := ClaimJob(before, id, start);
      Outcome(claimed, after, id, claimed.jobs[id], o, loader, now, fault, handler, summary)
    else Concluded(before, after, id, SkippedJob, start, fault, handler, summary)
  }

  /** The try block, when nothing strikes before the claim has been committed. */
  method Process(
    s: JobService, id: JobId, o: Session, loader: seq<LabelledBatch>, elapsed: nat, fault: Fault, handler: Handler,
    ghost w: nat)
    returns (summary: Summary)
    requires s.Valid() && WorkerAt(s, w, Worker(id, Delivered, false)) && ValidLoader(loader)
    requires !fault.ImportFails? && fault != Killed(AtClaim) && !(fault.Raises? && fault.at.AtClaim?)
    modifies s`jobs, s`results, s`clock, s`run
    ensures s.Valid() && Extends(old(s.run), s.run)
    ensures s.World().submitters == old(s.World()).submitters
    ensures Over(s, w, id, summary)
    ensures Executed(old(s.Db()), s.Db(), id, o, loader, old(s.clock), s.clock, fault, handler, summary)
  {
    var job := ClaimAndLoad(s, id, w);
    if job.None? {
      summary := Conclude(s, id, SkippedJob, fault, handler, w, Worker(id, Skipped, false));
    } else {
      summary := Execute(s, id, job.value, o, loader, elapsed, fault, handler, w);
    }
  }

  /** run_benchmark_job */
  method RunBenchmarkJob(
    s: JobService, id: JobId, consumed: bool, o: Session, loader: seq<LabelledBatch>, elapsed: nat, fault: Fault,
    handler: Handler)
    returns (summary: Summary, ghost w: nat)
    requires s.Valid() && (if consumed then id in s.entries else id in s.World().pushed) && ValidLoader(loader)
    modifies s
    ensures s.Valid() && Extends(old(s.run), s.run) && w !in old(s.World()).workers
    ensures s.World().submitters == old(s.World()).submitters
    ensures Over(s, w, id, summary)
    ensures s.entries == if consumed then old(s.entries) - multiset{id} else old(s.entries)
    ensures Executed(old(s.Db()), s.Db(), id, o, loader, old(s.clock), s.clock, fault, handler, summary)
  {
    w := Take(s, id, consumed);
    if fault.ImportFails? || fault == Killed(AtClaim) {
      Die(s, w, Worker(id, Delivered, false));
      summary := if fault.ImportFails? then Escaped else Vanished;
    } else if fault.Raises? && fault.at.AtClaim? {
      summary := Handle(s, id, fault.message, handler, w, Worker(id, Delivered, false));
    } else {
      summary := Process(s, id, o, loader, elapsed, fault, handler, w);
    }
  }

  // ------------------------------------------------------------------ what it leaves behind

  /** Something strikes before the claim is committed, and nothing records it. */
  ghost predicate LostBeforeClaim(fault: Fault, handler: Handler) {
    fault.ImportFails? || fault == Killed(AtClaim) || (fault.Raises? && fault.at.AtClaim? && !handler.HandlerWorks?)
  }

  /** Something strikes between claim and outcome - an empty evaluation set does - and nothing records it. */
  ghost predicate LostDuringRun(loader: seq<LabelledBatch>, fault: Fault, handler: Handler) {
    !fault.ImportFails? && (fault.Raises? || fault.Killed? ==> !fault.at.AtClaim?)
    && (fault == Killed(AtRun) || (((fault.Raises? && fault.at.AtRun?) || loader == []) && !handler.HandlerWorks?))
  }

  lemma OutcomeEndsTheJob(
    before: Database, after: Database, id: JobId, job: Job, o: Session, loader: seq<LabelledBatch>, now: int,
    fault: Fault, handler: Handler, summary: Summary)
    requires ValidLoader(loader) && id in before.jobs && job == before.jobs[id] && job.status == RUNNING
    requires !fault.ImportFails? && (fault.Raises? || fault.Killed? ==> !fault.at.AtClaim?)
    requires Outcome(before, after, id, job, o, loader, now, fault, handler, summary)
    ensures id in after.jobs && after.jobs[id].status in {RUNNING, SUCCEEDED, FAILED}
    ensures after.jobs[id].status == RUNNING <==> LostDuringRun(loader, fault, handler)
    ensures after.jobs[id].status == RUNNING ==> after.jobs[id].startedAt == job.startedAt
    ensures summary.Finished? ==> after.jobs[id].status == SUCCEEDED
    ensures after.jobs[id].status == FAILED <==> summary.Failed?
    ensures summary.Failed? ==> after.jobs[id].errorMessage == Some(Text(Truncated(summary.message)))
    ensures forall other | other in before.jobs && other != id ::
      other in after.jobs && after.jobs[other] == before.jobs[other]
  {
  }

  /**
   * How an execution leaves a job it found queued: `queued` exactly when it is lost before its
   * claim, `running` exactly when it is lost between claim and outcome, and in a terminal state
   * exactly when neither happens.
   */
  lemma ExecutionEndsTheJob(
    before: Database, after: Database, id: JobId, o: Session, loader: seq<LabelledBatch>, start: int, now: int,
    fault: Fault, handler: Handler, summary: Summary)
    requires ValidLoader(loader) && IsQueued(before, id)
    requires Executed(before, after, id, o, loader, start, now, fault, handler, summary)
    ensures id in after.jobs
    ensures after.jobs[id].status == QUEUED <==> LostBeforeClaim(fault, handler)
    ensures after.jobs[id].status == RUNNING <==> LostDuringRun(loader, fault, handler)
    ensures after.jobs[id].status in {SUCCEEDED, FAILED, CANCELLED}
            <==> !LostBeforeClaim(fault, handler) && !LostDuringRun(loader, fault, handler)
    ensures after.jobs[id].status == RUNNING ==> after.jobs[id].startedAt == Some(start)
    ensures summary.Finished? ==> after.jobs[id].status == SUCCEEDED
    ensures after.jobs[id].status == FAILED <==> summary.Failed?
    ensures summary.Failed? ==> after.jobs[id].errorMessage == Some(Text(Truncated(summary.message)))
    ensures forall other | other in before.jobs && other != id ::
      other in after.jobs && after.jobs[other] == before.jobs[other]
  {
    if !LostBeforeClaim(fault, handler) && (fault.Raises? ==> !fault.at.AtClaim?) {
      var claimed := ClaimJob(before, id, start);
      OutcomeEndsTheJob(claimed, after, id, claimed.jobs[id], o, loader, now, fault, handler, summary);
    }
  }

  /**
   * A recorded failure carries the text of the exception that struck, and the engine's own when
   * there was nothing to evaluate: an empty set ends the run before anything after it can raise.
   */
  lemma FailureNamesItsException(
    before: Database, after: Database, id: JobId, o: Session, loader: seq<LabelledBatch>, start: int, now: int,
    fault: Fault, handler: Handler, summary: Summary)
    requires ValidLoader(loader) && IsQueued(before, id)
    requires Executed(before, after, id, o, loader, start, now, fault, handler, summary) && summary.Failed?
    ensures summary.message == if fault.Raises? && (loader != [] || !fault.at.AtEnd?) then fault.message
                               else "RuntimeError: Evaluation set was empty"
    ensures id in after.jobs && after.jobs[id].status == FAILED
            && after.jobs[id].errorMessage == Some(Text(Truncated(summary.message)))
  {
    ExecutionEndsTheJob(before, after, id, o, loader, start, now, fault, handler, summary);
  }

  lemma FinishedMeansPublished(
    before: Database, after: Database, id: JobId, o: Session, loader: seq<LabelledBatch>, start: int, now: int,
    fault: Fault, handler: Handler, summary: Summary)
    requires ValidLoader(loader) && IsQueued(before, id)
    requires Executed(before, after, id, o, loader, start, now, fault, handler, summary) && summary.Finished?
    ensures var claimed := ClaimJob(before, id, start); Published(claimed, after, id, claimed.jobs[id], o, loader, now)
  {
  }

  lemma PublishedRowsAreRead(before: Database, id: JobId, job: Job, rows: seq<JobResult>, now: int)
    requires id in before.jobs && ResultsOf(before.results, id) == [] && Complete(rows, id, job.payload.attacks)
    ensures ResultsOf(Models.MarkSucceeded(before, id, job, rows, now).results, id) == rows
  {
    ResultsOfAppended(before.results, rows, id, id);
  }

  /** What a client then reads is one correct row per requested attack, in request order. */
  lemma FinishedExecutionIsPublished(
    s: State, after: Database, id: JobId, o: Session, loader: seq<LabelledBatch>, start: int, now: int,
    fault: Fault, handler: Handler, summary: Summary)
    requires ResultsOk(s) && ValidLoader(loader) && IsQueued(s.db, id)
    requires Executed(s.db, after, id, o, loader, start, now, fault, handler, summary) && summary.Finished?
    ensures GetJobResults(after, id).Ok?
    ensures RowsFor(GetJobResults(after, id).value.1, id, s.db.jobs[id].payload, o, loader)
  {
    var claimed := ClaimJob(s.db, id, start);
    var job := claimed.jobs[id];
    FinishedMeansPublished(s.db, after, id, o, loader, start, now, fault, handler, summary);
    var rows :| RowsFor(rows, id, job.payload, o, loader) && after == Models.MarkSucceeded(claimed, id, job, rows, now);
    PublishedRowsAreRead(claimed, id, job, rows, now);
    ExecutionEndsTheJob(s.db, after, id, o, loader, start, now, fault, handler, summary);
  }
}
