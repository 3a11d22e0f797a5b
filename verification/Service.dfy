/**
 * src/service/jobs.py statement by statement, over real tables and a real queue.  The ghost
 * field `run` is the protocol run the service has taken part in: every commit and every
 * queue operation below is also one step of that run, so whatever is proved about runs
 * holds of the tables.  A service may start from any reachable state, with any number of
 * other calls and executions under way.
 */
module Service {
  import opened Prelude
  import opened Cursor
  import opened Fingerprint
  import opened Models
  import opened Protocol
  import opened History

  lemma Above(s: set<nat>) returns (x: nat)
    ensures forall y | y in s :: y < x
  {
    if s == {} {
      x := 0;
    } else {
      var y :| y in s;
      var z := Above(s - {y});
      x := if y < z then z else y + 1;
      assert forall other | other in s :: other == y || other in s - {y};
    }
  }

  lemma UpdatedTwice(rows: map<JobId, Job>, id: JobId, first: Job, second: Job)
    ensures rows[id := first][id := second] == rows[id := second]
  {
  }

  // ------------------------------------------------------------------- the service

  /** `FailureNotRecorded`: the queue raised, and so did the commit that was to record it. */
  datatype CreateError = CapacityExceeded | IntegrityFailed | KeyReused(jobId: JobId) | FailureNotRecorded(jobId: JobId)

  /** `(job, replayed)` of create_job, with the job's id. */
  datatype Creation = Creation(id: JobId, job: Job, replayed: bool)

  datatype CancelError = UnknownJob | NotCancellable(status: JobStatus) | QueueUnreachable

  /** When, if at all, `queue.enqueue` raises. */
  datatype EnqueueFault = Accepted | RaisedBefore(message: string) | RaisedAfter(message: string)

  class JobService {
    const settings: Settings
    var jobs: map<JobId, Job>
    var results: seq<JobResult>
    var entries: multiset<JobId>
    var clock: int
    ghost var run: Run

    function Db(): Database
      reads this
    {
      Database(jobs, results)
    }

    ghost function World(): State
      requires |run.states| > 0
      reads this
    {
      Last(run)
    }

    /** The tables, the queue and the clock are those of the last state of a protocol run. */
    ghost predicate Valid()
      reads this
    {
      run.Valid() && World().settings == settings && World().db == Db() && World().queue == entries
          && World().now == clock
    }

    /** A service attached to the tables and the queue another process has left behind. */
    constructor (
      settings: Settings, jobs: map<JobId, Job>, results: seq<JobResult>, entries: multiset<JobId>, clock: int,
      ghost run: Run)
      requires run.Valid() && Last(run).settings == settings && Last(run).db == Database(jobs, results)
      requires Last(run).queue == entries && Last(run).now == clock
      ensures Valid() && this.settings == settings && this.run == run
    {
      this.settings, this.jobs, this.results, this.entries, this.clock, this.run :=
        settings, jobs, results, entries, clock, run;
    }

    /** One more step of the run. */
    ghost method Advance(step: Step)
      requires run.Valid() && Enabled(World(), step)
      modifies `run
      ensures run.Valid() && Extends(old(run), run) && World() == After(old(World()), step)
    {
      ExtendedIsValid(run, step);
      run := Extended(run, step);
    }

    // ------------------------------------------------------------------- transitions

    /** The commit of create_job's INSERT: refused by a constraint or not. */
    method CommitInsert(id: JobId, job: Job) returns (committed: bool)
      modifies `jobs
      ensures committed == Insertable(old(Db()), id, job)
      ensures Db() == if committed then InsertJob(old(Db()), id, job) else old(Db())
    {
      committed := Insertable(Db(), id, job);
      if committed {
        jobs := jobs[id := job];
      }
    }

    /** The claim: a conditional UPDATE, and a re-read when it matched. */
    method MarkRunning(id: JobId) returns (job: Option<Job>)
      modifies `jobs
      ensures jobs == if id in old(jobs) && old(jobs)[id].status == QUEUED
                      then old(jobs)[id := old(jobs)[id].(status := RUNNING, startedAt := Some(clock))]
                      else old(jobs)
      ensures Db() == ClaimJob(old(Db()), id, clock)
      ensures job == if id in old(jobs) && old(jobs)[id].status == QUEUED then Some(jobs[id]) else None
    {
      if id in jobs && jobs[id].status == QUEUED {
        jobs := jobs[id := jobs[id].(status := RUNNING, startedAt := Some(clock))];
        return Some(jobs[id]);
      } else {
        return None;
      }
    }

    /** Assigns the three fields of the loaded object and flushes those that changed. */
    method FlushOutcome(id: JobId, loaded: Job, status: JobStatus, message: Option<ErrorMessage>)
      requires id in jobs
      modifies `jobs
      ensures var row := old(jobs)[id];
              jobs == old(jobs)[id := row.(
                status := if status == loaded.status then row.status else status,
                errorMessage := if message == loaded.errorMessage then row.errorMessage else message,
                finishedAt := if Some(clock) == loaded.finishedAt then row.finishedAt else Some(clock))]
    {
      var job := loaded;
      job := job.(status := status);
      job := job.(finishedAt := Some(clock));
      job := job.(errorMessage := message);
      var row := jobs[id];
      if job.status != loaded.status {
        row := row.(status := job.status);
      }
      if job.finishedAt != loaded.finishedAt {
        row := row.(finishedAt := job.finishedAt);
      }
      if job.errorMessage != loaded.errorMessage {
        row := row.(errorMessage := job.errorMessage);
      }
      jobs := jobs[id := row];
    }

    method MarkSucceeded(id: JobId, loaded: Job, rows: seq<JobResult>) returns (committed: bool)
      requires id in jobs
      modifies `jobs, `results
      ensures committed <==>
                (forall i, j | 0 <= i < j < |rows| ::
                   rows[i].jobId != rows[j].jobId || rows[i].attackName != rows[j].attackName)
                && forall i, j | 0 <= i < |old(results)| && 0 <= j < |rows| ::
                     old(results)[i].jobId != rows[j].jobId || old(results)[i].attackName != rows[j].attackName
      ensures Db() == if committed then Models.MarkSucceeded(old(Db()), id, loaded, rows, clock) else old(Db())
    {
      committed := ResultsInsertable(results, rows);
      if committed {
        FlushOutcome(id, loaded, SUCCEEDED, None);
        results := results + rows;
      }
    }

    method MarkFailed(id: JobId, loaded: Job, message: string)
      requires id in jobs
      modifies `jobs
      ensures Db() == Models.MarkFailed(old(Db()), id, loaded, message, clock)
    {
      var stored := if |message| <= 1000 then message else message[..1000];
      FlushOutcome(id, loaded, FAILED, Some(Text(stored)));
    }

    // ---------------------------------------------------------------------- create_job

    /** A call of create_job with a number of its own. */
    ghost method Arrive(payload: Payload, key: Option<string>) returns (x: nat)
      requires Valid() && ValidRequest(payload)
      modifies `run
      ensures Valid() && Extends(old(run), run) && x !in old(World()).submitters
      ensures World() == old(World()).(submitters := old(World()).submitters[x := Submitter(payload, key, Arrived)])
    {
      x := Above(World().submitters.Keys);
      Advance(Submit(x, payload, key));
    }

    /** _assert_capacity */
    method AssertCapacity(payload: Payload, key: Option<string>, ghost x: nat) returns (admitted: bool)
      requires Valid() && StandsAt(x, payload, key, Arrived)
      modifies `run
      ensures Valid() && Extends(old(run), run)
      ensures admitted <==>
                |set id | id in jobs && (jobs[id].status == QUEUED || jobs[id].status == RUNNING)|
                < settings.maxActiveJobs
      ensures StandsAt(x, payload, key, if admitted then Counted else Refused(Capacity))
    {
      var active := set id | id in jobs && (jobs[id].status == QUEUED || jobs[id].status == RUNNING);
      assert active == ActiveIds(Db());
      admitted := !(|active| >= settings.maxActiveJobs);
      Advance(SubmitterDoes(x, Count));
    }

    /** session.add and session.commit, where every constraint is checked. */
    method TryInsert(payload: Payload, key: Option<string>, id: JobId, createdAt: Moment, ghost x: nat)
      returns (committed: bool)
      requires Valid() && StandsAt(x, payload, key, Counted)
      modifies `jobs, `run
      ensures Valid() && Extends(old(run), run)
      ensures var job := NewJob(settings, payload, key, createdAt);
              committed == Insertable(old(Db()), id, job)
              && Db() == (if committed then InsertJob(old(Db()), id, job) else old(Db()))
              && StandsAt(x, payload, key,
                          if committed then Inserted(id, job) else if key.None? then Refused(Integrity) else Collided)
    {
      committed := CommitInsert(id, NewJob(settings, payload, key, createdAt));
      Advance(SubmitterDoes(x, Commit(id, createdAt)));
    }

    /** SELECT ... WHERE idempotency_key = key */
    method FindByKey(key: string) returns (found: Option<JobId>)
      ensures found.Some? ==> found.value in jobs && jobs[found.value].idempotencyKey == Some(key)
      ensures found.None? <==> !KeyTaken(Db(), key)
    {
      if id :| id in jobs && jobs[id].idempotencyKey == Some(key) {
        found := Some(id);
      } else {
        found := None;
      }
    }

    /** Where the call stands once its INSERT has been tried. */
    ghost predicate StandsAt(x: nat, payload: Payload, key: Option<string>, pc: SubmitterPc)
      reads this
    {
      run.Valid() && x in World().submitters && World().submitters[x] == Submitter(payload, key, pc)
    }

    /**
     * What a call that creates nothing may answer.  A replay returns the row that holds the
     * call's own key and was made from the same request; a different request is refused.
     */
    ghost predicate IsAnswer(r: Result<Creation, CreateError>, payload: Payload, key: Option<string>, x: nat)
      reads this
    {
      match r
      case Ok(c) =>
        c.replayed && key.Some? && c.id in jobs && c.job == jobs[c.id] && c.job.idempotencyKey == key
        && c.job.fingerprint == settings.fingerprint(payload) && StandsAt(x, payload, key, Returned(c.id, true))
      case Err(CapacityExceeded) => StandsAt(x, payload, key, Refused(Capacity))
      case Err(IntegrityFailed) =>
        (key.None? || !KeyTaken(Db(), key.value)) && StandsAt(x, payload, key, Refused(Integrity))
      case Err(KeyReused(id)) =>
        key.Some? && id in jobs && jobs[id].idempotencyKey == key
            && jobs[id].fingerprint != settings.fingerprint(payload)
        && StandsAt(x, payload, key, Refused(KeyReuse))
      case Err(FailureNotRecorded(_)) => false
    }

    /** After a collision: replay the row that holds the key, or refuse. */
    method Replay(payload: Payload, key: Option<string>, ghost x: nat) returns (r: Result<Creation, CreateError>)
      requires Valid() && StandsAt(x, payload, key, if key.None? then Refused(Integrity) else Collided)
      modifies `run
      ensures Valid() && Extends(old(run), run)
      ensures IsAnswer(r, payload, key, x) && r != Err(CapacityExceeded)
    {
      if key.None? {
        return Err(IntegrityFailed);
      }
      var existing := FindByKey(key.value);
      Advance(SubmitterDoes(x, Lookup(existing)));
      if existing.None? {
        return Err(IntegrityFailed);
      }
      if jobs[existing.value].fingerprint != settings.fingerprint(payload) {
        return Err(KeyReused(existing.value));
      }
      return Ok(Creation(existing.value, jobs[existing.value], true));
    }

    /** The INSERT, and the replay when it collides. */
    method InsertOrReplay(payload: Payload, key: Option<string>, id: JobId, createdAt: Moment, ghost x: nat)
      returns (r: Option<Result<Creation, CreateError>>)
      requires Valid() && StandsAt(x, payload, key, Counted)
      modifies `jobs, `run
      ensures Valid() && Extends(old(run), run)
      ensures var job := NewJob(settings, payload, key, createdAt);
              (r.None? <==> Insertable(old(Db()), id, job))
              && (r.None? ==> Db() == InsertJob(old(Db()), id, job) && StandsAt(x, payload, key, Inserted(id, job)))
      ensures r.Some? ==>
                Db() == old(Db()) && IsAnswer(r.value, payload, key, x) && r.value != Err(CapacityExceeded)
    {
      var committed := TryInsert(payload, key, id, createdAt, x);
      if committed {
        return None;
      }
      var replay := Replay(payload, key, x);
      return Some(replay);
    }

    /** The call passes the capacity check and the constraints of the table. */
    predicate Admits(payload: Payload, key: Option<string>, id: JobId)
      reads this
    {
      |set other | other in jobs && (jobs[other].status == QUEUED || jobs[other].status == RUNNING)|
      < settings.maxActiveJobs
      && id !in jobs && (forall other | other in jobs && key.Some? :: jobs[other].idempotencyKey != key)
      && payload.epsilon > 0 && payload.maxIterations > 0
    }

    /**
     * create_job up to the point where a new row would be enqueued.  `None` means that the
     * row was inserted and is not yet in the queue.
     */
    method Submission(payload: Payload, key: Option<string>, id: JobId, createdAt: Moment)
      returns (r: Option<Result<Creation, CreateError>>, ghost x: nat)
      requires Valid() && ValidRequest(payload)
      modifies `jobs, `run
      ensures Valid() && Extends(old(run), run) && x !in old(World()).submitters
      ensures r == Some(Err(CapacityExceeded)) <==>
                |set i | i in old(jobs) && (old(jobs)[i].status == QUEUED || old(jobs)[i].status == RUNNING)|
                >= settings.maxActiveJobs
      ensures r.None? <==>
                |set i | i in old(jobs) && (old(jobs)[i].status == QUEUED || old(jobs)[i].status == RUNNING)|
                < settings.maxActiveJobs
                && id !in old(jobs) && (forall other | other in old(jobs) && key.Some? ::
                                          old(jobs)[other].idempotencyKey != key)
                && payload.epsilon > 0 && payload.maxIterations > 0
      ensures r.None? <==> old(Admits(payload, key, id))
      ensures r.None? ==>
                var job := Job(key, settings.fingerprint(payload), payload, createdAt, QUEUED, None, None, None);
                Db() == Database(old(jobs)[id := job], old(results)) && StandsAt(x, payload, key, Inserted(id, job))
      ensures r.Some? ==> Db() == old(Db()) && IsAnswer(r.value, payload, key, x)
    {
      x := Arrive(payload, key);
      var admitted := AssertCapacity(payload, key, x);
      r := Some(Err(CapacityExceeded));
      if admitted {
        r := InsertOrReplay(payload, key, id, createdAt, x);
      }
    }

    /** RedisQueue.enqueue: the entry is there, or an exception is, or both. */
    method Enqueue(payload: Payload, key: Option<string>, id: JobId, job: Job, fault: EnqueueFault, ghost x: nat)
      returns (raised: Option<string>)
      requires Valid() && StandsAt(x, payload, key, Inserted(id, job))
      modifies `entries, `run
      ensures Valid() && Extends(old(run), run)
      ensures raised == if fault.Accepted? then None else Some(fault.message)
      ensures entries == old(entries) + if fault.RaisedBefore? then multiset{} else multiset{id}
      ensures StandsAt(x, payload, key, if fault.Accepted? then Pushed(id, job) else Raising(id, job))
    {
      if !fault.RaisedBefore? {
        entries := entries + multiset{id};
        Advance(SubmitterDoes(x, Push));
      }
      if fault.Accepted? {
        return None;
      }
      Advance(SubmitterDoes(x, EnqueueRaise));
      return Some(fault.message);
    }

    /** The except branch around `queue.enqueue`; `recordable` tells whether its commit goes through. */
    method RecordEnqueueFailure(
      payload: Payload, key: Option<string>, id: JobId, job: Job, message: string, recordable: bool, ghost x: nat)
      requires Valid() && StandsAt(x, payload, key, Raising(id, job)) && id in jobs
      modifies `jobs, `run
      ensures Valid() && Extends(old(run), run)
      ensures Db() == if recordable then Models.MarkFailed(old(Db()), id, job, "Could not enqueue job: " + message,
          clock)
                      else old(Db())
      ensures StandsAt(x, payload, key, if recordable then Returned(id, false) else Died)
    {
      if recordable {
        MarkFailed(id, job, "Could not enqueue job: " + message);
        Advance(SubmitterDoes(x, MarkEnqueueFailed("Could not enqueue job: " + message)));
      } else {
        Advance(SubmitterDoes(x, SubmitterDies));
      }
    }

    /** create_job from the enqueue on. */
    method Dispatch(
      payload: Payload, key: Option<string>, id: JobId, job: Job, fault: EnqueueFault, recordable: bool, ghost x: nat)
      returns (r: Result<Creation, CreateError>)
      requires Valid() && StandsAt(x, payload, key, Inserted(id, job)) && id in jobs && jobs[id] == job
      requires job.status == QUEUED && job.finishedAt == None && job.errorMessage == None
      modifies `jobs, `entries, `run
      ensures Valid() && Extends(old(run), run)
      ensures StandsAt(x, payload, key, if r.Ok? then Returned(id, false) else Died)
      ensures id in jobs && r == (if fault.Accepted? || recordable then Ok(Creation(id, jobs[id], false))
                                  else Err(FailureNotRecorded(id)))
      ensures var row :=
                if fault.Accepted? || !recordable then job
                else job.(status := FAILED, finishedAt := Some(clock),
                          errorMessage := Some(Text(Truncated("Could not enqueue job: " + fault.message))));
              jobs == old(jobs)[id := row] && results == old(results)
      ensures entries == old(entries) + if fault.RaisedBefore? then multiset{} else multiset{id}
    {
      var raised := Enqueue(payload, key, id, job, fault, x);
      if raised.Some? {
        RecordEnqueueFailure(payload, key, id, job, raised.value, recordable, x);
      } else {
        Advance(SubmitterDoes(x, EnqueueReturn));
      }
      r := if fault.Accepted? || recordable then Ok(Creation(id, jobs[id], false)) else Err(FailureNotRecorded(id));
    }

    /**
     * create_job.  A new row and a queue entry appear together; when the queue refuses, the
     * row is failed at once, or the call raises when even that cannot be committed; every
     * other outcome leaves tables and queue as they were.
     */
    method CreateJob(
      payload: Payload, key: Option<string>, id: JobId, createdAt: Moment, fault: EnqueueFault, recordable: bool)
      returns (r: Result<Creation, CreateError>, ghost x: nat)
      requires Valid() && ValidRequest(payload)
      modifies `jobs, `entries, `run
      ensures Valid() && Extends(old(run), run) && x !in old(World()).submitters
      ensures r == Err(CapacityExceeded) <==>
                |set i | i in old(jobs) && (old(jobs)[i].status == QUEUED || old(jobs)[i].status == RUNNING)|
                >= settings.maxActiveJobs
      ensures old(Admits(payload, key, id)) ==>
                var job := Job(key, settings.fingerprint(payload), payload, createdAt, QUEUED, None, None, None);
                var row :=
                  if fault.Accepted? || !recordable then job
                  else job.(status := FAILED, finishedAt := Some(clock),
                            errorMessage := Some(Text(Truncated("Could not enqueue job: " + fault.message))));
                jobs == old(jobs)[id := row] && results == old(results)
                && entries == (old(entries) + if fault.RaisedBefore? then multiset{} else multiset{id})
                && id in jobs
                && r == (if fault.Accepted? || recordable then Ok(Creation(id, jobs[id], false))
                         else Err(FailureNotRecorded(id)))
                && StandsAt(x, payload, key, if r.Ok? then Returned(id, false) else Died)
      ensures !old(Admits(payload, key, id)) ==>
                Db() == old(Db()) && entries == old(entries) && IsAnswer(r, payload, key, x)
    {
      var answer;
      answer, x := Submission(payload, key, id, createdAt);
      if answer.Some? {
        r := answer.value;
      } else {
        var job := NewJob(settings, payload, key, createdAt);
        r := Dispatch(payload, key, id, job, fault, recordable, x);
        UpdatedTwice(old(jobs), id, job, jobs[id]);
      }
    }

    // ---------------------------------------------------------------------- cancel_job

    /** UPDATE ... WHERE id = ? AND status = 'queued'; answers the row count. */
    method CancelQueued(id: JobId) returns (matched: bool)
      modifies `jobs
      ensures matched == IsQueued(old(Db()), id) && Db() == Models.CancelJob(old(Db()), id, clock)
    {
      matched := id in jobs && jobs[id].status == QUEUED;
      if matched {
        jobs := jobs[id := jobs[id].(status := CANCELLED, finishedAt := Some(clock))];
      }
    }

    ghost predicate CancellerAt(c: nat, id: JobId, pc: CancellerPc, won: bool)
      reads this
    {
      run.Valid() && c in World().cancellers && World().cancellers[c] == Canceller(id, pc, won)
    }

    /** The job was found, and its UPDATE has been committed. */
    method CommitCancel(id: JobId) returns (matched: bool, ghost c: nat)
      requires Valid() && id in jobs
      modifies `jobs, `run
      ensures Valid() && Extends(old(run), run) && c !in old(World()).cancellers
      ensures matched == IsQueued(old(Db()), id) && Db() == Models.CancelJob(old(Db()), id, clock)
      ensures CancellerAt(c, id, if matched then Removing else Done, matched)
    {
      c := Above(World().cancellers.Keys);
      Advance(Cancel(c, id));
      matched := CancelQueued(id);
      Advance(CancellerDoes(c, ConditionalUpdate));
    }

    /**
     * cancel_job.  Exactly a queued job is cancelled, whether or not the queue can be reached
     * afterwards; its queue entries go with it when it can.
     */
    method CancelJob(id: JobId, reachable: bool) returns (r: Result<Job, CancelError>)
      requires Valid()
      modifies `jobs, `entries, `run
      ensures Valid() && Extends(old(run), run)
      ensures Db() == Database(
          if id in old(jobs) && old(jobs)[id].status == QUEUED then
            old(jobs)[id := old(jobs)[id].(status := CANCELLED, finishedAt := Some(clock))]
          else old(jobs), old(results))
      ensures r.Ok? || r == Err(QueueUnreachable) <==> id in old(jobs) && old(jobs)[id].status == QUEUED
      ensures r.Ok? ==> reachable && id in jobs && r.value == jobs[id] && r.value.status == CANCELLED
      ensures r == Err(UnknownJob) <==> id !in old(jobs)
      ensures r.Err? && r.error.NotCancellable? ==> id in jobs && r.error.status == jobs[id].status
      ensures entries == if r.Ok? then old(entries)[id := 0] else old(entries)
    {
      if id !in jobs {
        return Err(UnknownJob);
      }
      var matched;
      ghost var c: nat;
      matched, c := CommitCancel(id);
      if !matched {
        return Err(NotCancellable(jobs[id].status));
      }
      if !reachable {
        Advance(CancellerDoes(c, CancellerDies));
        return Err(QueueUnreachable);
      }
      entries := entries[id := 0];
      Advance(CancellerDoes(c, RemoveEntry(true)));
      return Ok(jobs[id]);
    }

    // ------------------------------------------------------------------------ the reaper

    /** UPDATE ... WHERE status = 'running' AND started_at < cutoff; answers the row count. */
    method FailStale(cutoff: int) returns (matched: nat)
      modifies `jobs
      ensures Db() == SweepJobs(old(Db()), cutoff, clock) && matched == |OverdueIds(old(Db()), cutoff)|
    {
      var stale := set id | id in jobs && jobs[id].status == RUNNING && jobs[id].startedAt.Some?
          && jobs[id].startedAt.value < cutoff;
      assert stale == OverdueIds(Db(), cutoff);
      jobs := map id | id in jobs ::
        if id in stale then jobs[id].(status := FAILED, finishedAt := Some(clock),
            errorMessage := Some(PresumedDead)) else jobs[id];
      return |stale|;
    }

    /** sweep_stale_jobs: fails exactly the overdue rows and answers how many there were. */
    method SweepStaleJobs() returns (reaped: nat)
      requires Valid()
      modifies `jobs, `run
      ensures Valid() && Extends(old(run), run) && World().lastSweep == clock
      ensures jobs.Keys == old(jobs).Keys && results == old(results)
      ensures forall id | id in jobs ::
                jobs[id] ==
                  if old(jobs)[id].status == RUNNING && old(jobs)[id].startedAt.Some?
                     && clock > old(jobs)[id].startedAt.value + settings.jobTimeoutSeconds
                                + settings.staleJobGraceSeconds
                  then
                    old(jobs)[id].(status := FAILED, finishedAt := Some(clock), errorMessage := Some(PresumedDead))
                  else old(jobs)[id]
      ensures reaped == |set id | id in jobs && jobs[id] != old(jobs)[id]|
    {
      reaped := FailStale(clock - (settings.jobTimeoutSeconds + settings.staleJobGraceSeconds));
      SweptRowsDiffer(old(jobs), jobs, results, clock - (settings.jobTimeoutSeconds + settings.staleJobGraceSeconds),
          clock);
      Advance(Sweep);
    }

    /** Time passes. */
    method Wait(elapsed: nat)
      requires Valid()
      modifies `clock, `run
      ensures Valid() && Extends(old(run), run) && clock == old(clock) + elapsed
      ensures World() == old(World()).(now := clock)
    {
      clock := clock + elapsed;
      Advance(Tick(elapsed));
    }
  }
}
