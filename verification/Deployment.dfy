/**
 * The two ways the pieces are put together: src/service/queue.py's inline backend, which runs
 * the job inside the call that creates it, and src/service/worker/main.py's reaper loop.
 */
module Deployment {
  import opened Prelude
  import opened Cursor
  import opened Fingerprint
  import opened Engine
  import opened Models
  import opened Protocol
  import opened History
  import opened Service
  import opened Execution
  import opened Invariants
  import opened Preservation

  // ----------------------------------------------------------------------- InlineQueue

  /** InlineQueue.enqueue: delivered at once, to this process. */
  method EnqueueInline(
    s: JobService, payload: Payload, key: Option<string>, id: JobId, job: Job, o: Session, loader: seq<LabelledBatch>,
    elapsed: nat, fault: Fault, handler: Handler, ghost x: nat)
    returns (summary: Summary)
    requires s.Valid() && ValidLoader(loader) && s.StandsAt(x, payload, key, Inserted(id, job))
    modifies s
    ensures s.Valid() && Extends(old(s.run), s.run) && s.entries == old(s.entries)
    ensures s.StandsAt(x, payload, key, Pushed(id, job))
    ensures Executed(old(s.Db()), s.Db(), id, o, loader, old(s.clock), s.clock, fault, handler, summary)
  {
    var raised := s.Enqueue(payload, key, id, job, Accepted, x);
    ghost var w;
    summary, w := RunBenchmarkJob(s, id, true, o, loader, elapsed, fault, handler);
  }

  /** How the creating call ends: it returns the job, it raises, or its process is gone. */
  datatype Ending = Returns | CannotRecord | Gone

  /** What escapes the worker is raised by `enqueue`, and fails the job there if that can be committed. */
  function EndingOf(summary: Summary, recordable: bool): Ending {
    match summary
    case Vanished => Gone
    case Escaped => if recordable then Returns else CannotRecord
    case _ => Returns
  }

  method ConcludeInline(
    s: JobService, payload: Payload, key: Option<string>, id: JobId, job: Job, summary: Summary, message: string,
    recordable: bool, ghost x: nat)
    requires s.Valid() && s.StandsAt(x, payload, key, Pushed(id, job)) && id in s.jobs
    modifies s`jobs, s`run
    ensures s.Valid() && Extends(old(s.run), s.run)
    ensures s.StandsAt(x, payload, key, if EndingOf(summary, recordable).Returns? then Returned(id, false) else Died)
    ensures s.Db() == if summary.Escaped? && recordable
                      then Models.MarkFailed(old(s.Db()), id, job, "Could not enqueue job: " + message, s.clock)
                      else old(s.Db())
  {
    match summary
    case Vanished => s.Advance(SubmitterDoes(x, SubmitterDies));
    case Escaped =>
      s.Advance(SubmitterDoes(x, EnqueueRaise));
      s.RecordEnqueueFailure(payload, key, id, job, message, recordable, x);
    case _ => s.Advance(SubmitterDoes(x, EnqueueReturn));
  }

  ghost predicate HasEnded(db: Database, id: JobId) {
    id in db.jobs && (db.jobs[id].status == SUCCEEDED || db.jobs[id].status == FAILED)
  }

  /** The execution is lost before its outcome, by an exception or with its process. */
  ghost predicate IsLost(loader: seq<LabelledBatch>, fault: Fault, handler: Handler) {
    LostBeforeClaim(fault, handler) || LostDuringRun(loader, fault, handler)
  }

  /** An execution that is lost answers nothing and leaves its job open; any other ends it. */
  lemma LostMeansOpen(
    before: Database, after: Database, id: JobId, o: Session, loader: seq<LabelledBatch>, start: int, now: int,
    fault: Fault, handler: Handler, summary: Summary)
    requires ValidLoader(loader) && IsQueued(before, id)
    requires Executed(before, after, id, o, loader, start, now, fault, handler, summary)
    ensures id in after.jobs && (HasEnded(after, id) <==> !IsLost(loader, fault, handler))
    ensures IsLost(loader, fault, handler) ==> summary.Escaped? || summary.Vanished?
  {
    ExecutionEndsTheJob(before, after, id, o, loader, start, now, fault, handler, summary);
  }

  /** create_job from the enqueue on. */
  method DispatchInline(
    s: JobService, payload: Payload, key: Option<string>, id: JobId, job: Job, o: Session, loader: seq<LabelledBatch>,
    elapsed: nat, fault: Fault, handler: Handler, message: string, recordable: bool, ghost x: nat)
    returns (summary: Summary)
    requires s.Valid() && ValidLoader(loader) && s.StandsAt(x, payload, key, Inserted(id, job))
    requires IsQueued(s.Db(), id) && job.status == QUEUED
    modifies s
    ensures s.Valid() && Extends(old(s.run), s.run) && s.entries == old(s.entries)
    ensures s.StandsAt(x, payload, key, if EndingOf(summary, recordable).Returns? then Returned(id, false) else Died)
    ensures EndingOf(summary, recordable).Returns? ==> HasEnded(s.Db(), id)
    ensures HasEnded(s.Db(), id) <==> !IsLost(loader, fault, handler) || (summary.Escaped? && recordable)
  {
    summary := EnqueueInline(s, payload, key, id, job, o, loader, elapsed, fault, handler, x);
    LostMeansOpen(old(s.Db()), s.Db(), id, o, loader, old(s.clock), s.clock, fault, handler, summary);
    ConcludeInline(s, payload, key, id, job, summary, message, recordable, x);
  }

  /**
   * create_job on the inline backend: a job it returns has ended, even when the engine could
   * not be imported or an exception escaped the worker.  A job it created has ended exactly
   * when the execution was not lost, or what escaped it could be recorded by this call.
   */
  method CreateJobInline(
    s: JobService, payload: Payload, key: Option<string>, id: JobId, createdAt: Moment, o: Session,
    loader: seq<LabelledBatch>, elapsed: nat, fault: Fault, handler: Handler, message: string, recordable: bool)
    returns (r: Option<Result<Creation, CreateError>>, ghost x: nat, ghost summary: Summary)
    requires s.Valid() && ValidRequest(payload) && ValidLoader(loader)
    modifies s
    ensures s.Valid() && Extends(old(s.run), s.run) && s.entries == old(s.entries)
    ensures old(s.Admits(payload, key, id)) ==>
              (HasEnded(s.Db(), id) <==> !IsLost(loader, fault, handler) || (summary.Escaped? && recordable))
              && match EndingOf(summary, recordable)
                 case Returns => HasEnded(s.Db(), id) && r.Some? && r.value.Ok? && r.value.value.id == id
                 case CannotRecord => r == Some(Err(FailureNotRecorded(id)))
                 case Gone => r == None
    ensures !old(s.Admits(payload, key, id)) ==>
              r.Some? && s.Db() == old(s.Db()) && s.IsAnswer(r.value, payload, key, x)
  {
    r, x := s.Submission(payload, key, id, createdAt);
    summary := SkippedJob;
    if r.None? {
      var job := NewJob(s.settings, payload, key, createdAt);
      var answer := DispatchInline(s, payload, key, id, job, o, loader, elapsed, fault, handler, message, recordable,
          x);
      summary := answer;
      match EndingOf(answer, recordable)
      case Returns => r := Some(Ok(Creation(id, job, false)));
      case CannotRecord => r := Some(Err(FailureNotRecorded(id)));
      case Gone => r := None;
    }
  }

  // ------------------------------------------------------------------------ the reaper

  /** One round of the loop: its sweep may raise, which is logged, and then it waits. */
  datatype Round = Round(raises: bool, wait: nat)

  /** How long ago, at the end of the rounds, the last sweep that went through was. */
  function Idle(rounds: seq<Round>): nat {
    if rounds == [] then 0
    else
      var last := rounds[|rounds| - 1];
      last.wait + if last.raises then Idle(rounds[..|rounds| - 1]) else 0
  }

  /** With no failing round and no wait above `grace` the last sweep is at most one `grace` old. */
  lemma PromptRoundsAreRecent(rounds: seq<Round>, grace: nat)
    requires forall n | 0 <= n < |rounds| :: !rounds[n].raises && rounds[n].wait <= grace
    ensures Idle(rounds) <= grace
  {
  }

  method RunRound(s: JobService, round: Round)
    requires s.Valid()
    modifies s`jobs, s`clock, s`run
    ensures s.Valid() && Extends(old(s.run), s.run) && s.clock == old(s.clock) + round.wait
    ensures s.World().lastSweep == if round.raises then old(s.World()).lastSweep else old(s.clock)
  {
    if !round.raises {
      var reaped := s.SweepStaleJobs();
    }
    s.Wait(round.wait);
  }

  ghost predicate RunsWithinBounds(job: Job, settings: Settings, now: int, idle: nat) {
    job.startedAt.Some?
    && now <= job.startedAt.value + settings.jobTimeoutSeconds + settings.staleJobGraceSeconds + idle
  }

  lemma SweptMeansBounded(s: JobService, id: JobId, idle: nat)
    requires s.Valid() && id in s.jobs && s.jobs[id].status == RUNNING && s.clock == s.World().lastSweep + idle
    ensures RunsWithinBounds(s.jobs[id], s.settings, s.clock, idle)
  {
    ReachableInv(s.run, |s.run.states| - 1);
    assert RowOk(s.World().db.jobs[id], s.clock);
  }

  /**
   * The start-up sweep and any number of rounds of the reaper's loop.  Nothing is `running`
   * past its timeout, its grace period and the time since the last sweep that went through.
   */
  method Reap(s: JobService, rounds: seq<Round>)
    requires s.Valid()
    modifies s
    ensures s.Valid() && Extends(old(s.run), s.run)
    ensures forall id | id in s.jobs && s.jobs[id].status == RUNNING ::
              RunsWithinBounds(s.jobs[id], s.settings, s.clock, Idle(rounds))
    ensures (forall n | 0 <= n < |rounds| :: !rounds[n].raises && rounds[n].wait <= s.settings.staleJobGraceSeconds)
            ==> Idle(rounds) <= s.settings.staleJobGraceSeconds
  {
    if forall n | 0 <= n < |rounds| :: !rounds[n].raises && rounds[n].wait <= s.settings.staleJobGraceSeconds {
      PromptRoundsAreRecent(rounds, s.settings.staleJobGraceSeconds);
    }
    var reaped := s.SweepStaleJobs();
    for n := 0 to |rounds|
      invariant s.Valid() && Extends(old(s.run), s.run)
      invariant s.clock == s.World().lastSweep + Idle(rounds[..n])
    {
      assert rounds[..n + 1][..n] == rounds[..n];
      RunRound(s, rounds[n]);
    }
    assert rounds[..|rounds|] == rounds;
    forall id | id in s.jobs && s.jobs[id].status == RUNNING
      ensures RunsWithinBounds(s.jobs[id], s.settings, s.clock, Idle(rounds))
    {
      SweptMeansBounded(s, id, Idle(rounds));
    }
  }
}
