/**
 * The tables of src/service/models.py, the request limits of src/service/schemas.py, and
 * every statement src/service/jobs.py sends to the database, as functions on the tables.
 */
module Models {
  import opened Prelude
  import opened Cursor
  import opened Fingerprint
  import Scoring

  type JobId = Uuid

  datatype JobStatus = QUEUED | RUNNING | SUCCEEDED | FAILED | CANCELLED {
    predicate IsTerminal() {
      SUCCEEDED? || FAILED? || CANCELLED?
    }

    /** queued < running < terminal */
    function Rank(): nat {
      if QUEUED? then 0 else if RUNNING? then 1 else 2
    }
  }

  /** `error_message`: the reaper's fixed sentence, or some other text. */
  datatype ErrorMessage = PresumedDead | Text(text: string)

  /** One row of `jobs`.  `payload` holds the four columns copied from the request. */
  datatype Job = Job(
    idempotencyKey: Option<string>, fingerprint: string, payload: Payload, createdAt: Moment,
    status: JobStatus, errorMessage: Option<ErrorMessage>, startedAt: Option<int>, finishedAt: Option<int>)

  /** One row of `job_results`; accuracy and norm are whole multiples of their column's last decimal place. */
  datatype JobResult = JobResult(
    jobId: JobId, attackName: string, robustAccuracy: nat, meanNll: int, perturbationNorm: nat, runtimeMs: nat)

  /** `results` is in id order: BIGSERIAL numbers rows as they are inserted. */
  datatype Database = Database(jobs: map<JobId, Job>, results: seq<JobResult>)

  /**
   * The limits the protocol depends on; times are seconds.  `fingerprint` is the hash of a
   * submission's canonical text, here any function of the submission.
   */
  datatype Settings = Settings(
    maxActiveJobs: nat, jobTimeoutSeconds: nat, staleJobGraceSeconds: nat, fingerprint: Payload -> string)

  const ATTACK_NAMES := ["fgsm", "pgd", "cw", "lbfgs", "ensemble"]

  /** What the schema and validate_submission let through. */
  ghost predicate ValidRequest(p: Payload) {
    1 <= |p.attacks| <= 5 && NoDuplicates(p.attacks) && (forall a | a in p.attacks :: a in ATTACK_NAMES)
    && p.epsilon <= 1090 && 1 <= p.maxIterations <= 200
  }

  // ----------------------------------------------------------------- inserting

  function NewJob(settings: Settings, p: Payload, key: Option<string>, createdAt: Moment): Job {
    Job(key, settings.fingerprint(p), p, createdAt, QUEUED, None, None, None)
  }

  predicate KeyTaken(db: Database, key: string) {
    exists id :: id in db.jobs && db.jobs[id].idempotencyKey == Some(key)
  }

  /** The primary key, the UNIQUE key (NULLs never collide) and the two CHECK constraints. */
  predicate Insertable(db: Database, id: JobId, job: Job) {
    id !in db.jobs
    && (job.idempotencyKey.Some? ==> !KeyTaken(db, job.idempotencyKey.value))
    && job.payload.epsilon > 0 && job.payload.maxIterations > 0
  }

  function InsertJob(db: Database, id: JobId, job: Job): Database {
    db.(jobs := db.jobs[id := job])
  }

  /** SELECT count(*) ... WHERE status IN ('queued', 'running') counts these. */
  function ActiveIds(db: Database): set<JobId> {
    set id | id in db.jobs && (db.jobs[id].status == QUEUED || db.jobs[id].status == RUNNING)
  }

  // -------------------------------------------------------- conditional updates

  /** The WHERE clause shared by claim and cancel; it decides the row count. */
  predicate IsQueued(db: Database, id: JobId) {
    id in db.jobs && db.jobs[id].status == QUEUED
  }

  function ClaimJob(db: Database, id: JobId, now: int): Database {
    if IsQueued(db, id) then db.(jobs := db.jobs[id := db.jobs[id].(status := RUNNING, startedAt := Some(now))])
    else db
  }

  function CancelJob(db: Database, id: JobId, now: int): Database {
    if IsQueued(db, id) then db.(jobs := db.jobs[id := db.jobs[id].(status := CANCELLED, finishedAt := Some(now))])
    else db
  }

  predicate Overdue(job: Job, cutoff: int) {
    job.status == RUNNING && job.startedAt.Some? && job.startedAt.value < cutoff
  }

  function ReapJob(job: Job, cutoff: int, now: int): Job {
    if Overdue(job, cutoff) then
      job.(status := FAILED, finishedAt := Some(now), errorMessage := Some(PresumedDead))
    else job
  }

  function SweepJobs(db: Database, cutoff: int, now: int): Database {
    db.(jobs := map id | id in db.jobs :: ReapJob(db.jobs[id], cutoff, now))
  }

  function OverdueIds(db: Database, cutoff: int): set<JobId> {
    set id | id in db.jobs && Overdue(db.jobs[id], cutoff)
  }

  /** The rows a sweep changes are the overdue ones. */
  lemma SweptRowsDiffer(before: map<JobId, Job>, after: map<JobId, Job>, results: seq<JobResult>, cutoff: int, now: int)
    requires Database(after, results) == SweepJobs(Database(before, results), cutoff, now)
    ensures OverdueIds(Database(before, results), cutoff) == set id | id in after && after[id] != before[id]
  {
  }

  // --------------------------------------------------------- writes through the ORM

  /**
   * The unconditional UPDATE of a session holding `loaded`: a column is written only when
   * its new value differs from the value that was loaded, whatever the row holds by now.
   */
  function Flush(row: Job, loaded: Job, status: JobStatus, message: Option<ErrorMessage>, finished: int): Job {
    row.(status := if status == loaded.status then row.status else status,
         errorMessage := if message == loaded.errorMessage then row.errorMessage else message,
         finishedAt := if Some(finished) == loaded.finishedAt then row.finishedAt else Some(finished))
  }

  /** What a client may see of an exception: all of a short message, the beginning of a long one. */
  function Truncated(message: string): (m: string)
    ensures m <= message && |m| == if |message| <= 1000 then |message| else 1000
  {
    if |message| <= 1000 then message else message[..1000]
  }

  function MarkFailed(db: Database, id: JobId, loaded: Job, message: string, now: int): Database
    requires id in db.jobs
  {
    db.(jobs := db.jobs[id := Flush(db.jobs[id], loaded, FAILED, Some(Text(Truncated(message))), now)])
  }

  /** UNIQUE (job_id, attack_name) over the table and the rows about to be added. */
  predicate ResultsInsertable(results: seq<JobResult>, rows: seq<JobResult>) {
    (forall i, j | 0 <= i < j < |rows| :: (rows[i].jobId, rows[i].attackName) != (rows[j].jobId, rows[j].attackName))
    && (forall i, j | 0 <= i < |results| && 0 <= j < |rows| ::
          (results[i].jobId, results[i].attackName) != (rows[j].jobId, rows[j].attackName))
  }

  /** Result rows and the status change, in one transaction. */
  function MarkSucceeded(db: Database, id: JobId, loaded: Job, rows: seq<JobResult>, now: int): Database
    requires id in db.jobs
  {
    Database(db.jobs[id := Flush(db.jobs[id], loaded, SUCCEEDED, None, now)], db.results + rows)
  }

  // -------------------------------------------------------------------- results

  /** The results relationship: one job's rows, in id order. */
  function ResultsOf(results: seq<JobResult>, id: JobId): (rs: seq<JobResult>)
    ensures forall i | 0 <= i < |rs| :: rs[i].jobId == id
  {
    if results == [] then []
    else
      ResultsOf(results[..|results| - 1], id)
      + (if results[|results| - 1].jobId == id then [results[|results| - 1]] else [])
  }

  /** `rows` are the rows of job `id`, one per attack, in request order. */
  ghost predicate Complete(rows: seq<JobResult>, id: JobId, attacks: seq<string>) {
    |rows| == |attacks| && forall i | 0 <= i < |rows| :: rows[i].jobId == id && rows[i].attackName == attacks[i]
  }

  lemma {:induction false} ResultsOfAppended(results: seq<JobResult>, rows: seq<JobResult>, id: JobId, other: JobId)
    requires forall i | 0 <= i < |rows| :: rows[i].jobId == id
    ensures ResultsOf(results + rows, other) == ResultsOf(results, other) + (if other == id then rows else [])
  {
    if rows == [] {
      assert results + rows == results;
    } else {
      var init := rows[..|rows| - 1];
      ResultsOfAppended(results, init, id, other);
      assert (results + rows)[..|results + rows| - 1] == results + init;
      assert rows == init + [rows[|rows| - 1]];
    }
  }

  /** A job with no rows in the filtered view has none in the table. */
  lemma {:induction false} NoResultsOf(results: seq<JobResult>, id: JobId)
    requires ResultsOf(results, id) == []
    ensures forall i | 0 <= i < |results| :: results[i].jobId != id
  {
    if results != [] {
      NoResultsOf(results[..|results| - 1], id);
    }
  }

  datatype ReadError = NotFound | ResultsNotReady(status: JobStatus, errorMessage: Option<ErrorMessage>)

  /** get_job_results, when both of its SELECTs see the same tables. */
  function GetJobResults(db: Database, id: JobId): Result<(Job, seq<JobResult>), ReadError> {
    if id !in db.jobs then Err(NotFound)
    else if db.jobs[id].status != SUCCEEDED then
      Err(ResultsNotReady(db.jobs[id].status, db.jobs[id].errorMessage))
    else Ok((db.jobs[id], ResultsOf(db.results, id)))
  }

  function Accuracies(rows: seq<JobResult>): (vs: seq<nat>)
    ensures |vs| == |rows| && forall i | 0 <= i < |rows| :: vs[i] == rows[i].robustAccuracy
  {
    seq(|rows|, i requires 0 <= i < |rows| => rows[i].robustAccuracy)
  }

  function DefenceScore(rows: seq<JobResult>): Option<nat> {
    Scoring.DefenceScore(Accuracies(rows))
  }
}
