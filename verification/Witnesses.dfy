/** Concrete runs that reach the states in which the protocol's weaker promises give way. */
module Witnesses {
  import opened Prelude
  import opened Cursor
  import opened Fingerprint
  import opened Models
  import opened Protocol
  import opened Preservation
  import opened History
  import Delivery
  import Finality

  /** One call that has counted an empty table. */
  ghost function Counting(settings: Settings, p: Payload): State {
    Empty(settings).(submitters := map[0 := Submitter(p, None, Counted)])
  }

  lemma CountingIsReachable(settings: Settings, p: Payload)
    requires settings.maxActiveJobs >= 1 && ValidRequest(p)
    ensures Reachable(Counting(settings, p))
  {
    var s := Empty(settings);
    EmptyIsReachable(settings);
    assert ActiveIds(s.db) == {};
    Next(s, Submit(0, p, None));
    var arrived := After(s, Submit(0, p, None));
    Next(arrived, SubmitterDoes(0, Count));
    assert After(arrived, SubmitterDoes(0, Count)) == Counting(settings, p);
  }

  /** ... and has inserted its row. */
  ghost function OneInserted(settings: Settings, p: Payload, id: JobId, createdAt: Moment): State {
    var job := NewJob(settings, p, None, createdAt);
    Counting(settings, p).(
      db := Database(map[id := job], []), submitters := map[0 := Submitter(p, None, Inserted(id, job))])
  }

  lemma OneInsertedIsReachable(settings: Settings, p: Payload, id: JobId, createdAt: Moment)
    requires settings.maxActiveJobs >= 1 && ValidRequest(p) && p.epsilon > 0
    ensures Reachable(OneInserted(settings, p, id, createdAt))
  {
    var s := Counting(settings, p);
    CountingIsReachable(settings, p);
    Next(s, SubmitterDoes(0, Commit(id, createdAt)));
    assert After(s, SubmitterDoes(0, Commit(id, createdAt))) == OneInserted(settings, p, id, createdAt);
  }

  /**
   * An API process that dies between its commit and its enqueue leaves a queued row that was
   * never handed to the queue: by `Delivery.OrphanStaysQueued` nobody will ever act on it.
   */
  lemma AJobCanBeStranded(settings: Settings, p: Payload, id: JobId, createdAt: Moment) returns (s: State)
    requires settings.maxActiveJobs >= 1 && ValidRequest(p) && p.epsilon > 0
    ensures Reachable(s) && s.settings == settings
    ensures Delivery.Stranded(s, id) && Delivery.Orphaned(s, id)
  {
    var before := OneInserted(settings, p, id, createdAt);
    OneInsertedIsReachable(settings, p, id, createdAt);
    Next(before, SubmitterDoes(0, SubmitterDies));
    s := After(before, SubmitterDoes(0, SubmitterDies));
  }

  /** ... or has enqueued it and returned. */
  lemma EnqueuedIsReachable(settings: Settings, p: Payload, id: JobId, createdAt: Moment) returns (s: State)
    requires settings.maxActiveJobs >= 1 && ValidRequest(p) && p.epsilon > 0
    ensures Reachable(s) && s.settings == settings && IsQueued(s.db, id) && s.db.jobs[id].payload == p
    ensures s.workers == map[] && s.queue == multiset{id}
    ensures forall x | x in s.submitters :: s.submitters[x].pc.Returned?
  {
    var inserted := OneInserted(settings, p, id, createdAt);
    OneInsertedIsReachable(settings, p, id, createdAt);
    Next(inserted, SubmitterDoes(0, Push));
    var pushed := After(inserted, SubmitterDoes(0, Push));
    assert pushed.queue == multiset{id} && pushed.workers == map[] && pushed.db == inserted.db;
    Next(pushed, SubmitterDoes(0, EnqueueReturn));
    s := After(pushed, SubmitterDoes(0, EnqueueReturn));
  }

  /** ... and a worker has taken the only entry. */
  lemma DeliveredIsReachable(settings: Settings, p: Payload, id: JobId, createdAt: Moment) returns (s: State)
    requires settings.maxActiveJobs >= 1 && ValidRequest(p) && p.epsilon > 0
    ensures Reachable(s) && s.settings == settings && IsQueued(s.db, id) && s.db.jobs[id].payload == p
    ensures s.workers == map[0 := Worker(id, Delivered, false)] && s.queue == multiset{}
    ensures forall x | x in s.submitters :: s.submitters[x].pc.Returned?
  {
    var enqueued := EnqueuedIsReachable(settings, p, id, createdAt);
    Next(enqueued, Deliver(0, id, true));
    s := After(enqueued, Deliver(0, id, true));
  }

  /**
   * A worker whose engine import fails leaves a queued row behind with its entry consumed and
   * its call returned: by `Delivery.StrandedStaysExactly` it stays so until it is cancelled or
   * delivered once more.
   */
  lemma AFailedImportCanStrand(settings: Settings, p: Payload, id: JobId, createdAt: Moment) returns (s: State)
    requires settings.maxActiveJobs >= 1 && ValidRequest(p) && p.epsilon > 0
    ensures Reachable(s) && s.settings == settings && Delivery.Stranded(s, id)
    ensures forall x | x in s.submitters :: s.submitters[x].pc.Returned?
  {
    var delivered := DeliveredIsReachable(settings, p, id, createdAt);
    Next(delivered, WorkerDoes(0, WorkerDies));
    s := After(delivered, WorkerDoes(0, WorkerDies));
  }

  /** A job whose worker has computed its rows and not yet committed them. */
  ghost predicate AboutToFinish(s: State, w: nat) {
    w in s.workers && s.workers[w].pc.Computed? && s.workers[w].jobId in s.db.jobs
    && s.db.jobs[s.workers[w].jobId].status == RUNNING
  }

  lemma ClaimedIsReachable(settings: Settings, p: Payload, id: JobId, createdAt: Moment) returns (t: State)
    requires settings.maxActiveJobs >= 1 && ValidRequest(p) && p.epsilon > 0
    ensures Reachable(t) && t.settings == settings && t.workers == map[0 := Worker(id, Claimed, true)]
    ensures id in t.db.jobs && t.db.jobs[id].status == RUNNING && t.db.jobs[id].payload == p
  {
    var delivered := DeliveredIsReachable(settings, p, id, createdAt);
    Next(delivered, WorkerDoes(0, Claim));
    t := After(delivered, WorkerDoes(0, Claim));
    assert t.workers == map[0 := Worker(id, Claimed, true)];
  }

  lemma ComputedIsReachable(s: State, id: JobId, rows: seq<JobResult>) returns (t: State)
    requires Reachable(s) && s.workers == map[0 := Worker(id, Claimed, true)]
    requires id in s.db.jobs && s.db.jobs[id].status == RUNNING && Complete(rows, id, s.db.jobs[id].payload.attacks)
    ensures Reachable(t) && t.settings == s.settings && AboutToFinish(t, 0) && t.workers[0].jobId == id
  {
    Next(s, WorkerDoes(0, Load));
    var loaded := After(s, WorkerDoes(0, Load));
    Next(loaded, WorkerDoes(0, Compute(rows)));
    t := After(loaded, WorkerDoes(0, Compute(rows)));
  }

  ghost function Rows(id: JobId, attacks: seq<string>): (rows: seq<JobResult>)
    ensures Complete(rows, id, attacks)
  {
    seq(|attacks|, n requires 0 <= n < |attacks| => JobResult(id, attacks[n], 0, 0, 0, 0))
  }

  lemma ReapedIsReachable(computed: State) returns (reaped: State)
    requires Reachable(computed)
    ensures reaped == Finality.Outwaited(computed) && Reachable(reaped) && reaped.settings == computed.settings
  {
    var patience := computed.settings.jobTimeoutSeconds + computed.settings.staleJobGraceSeconds;
    Next(computed, Tick(patience + 1));
    Next(After(computed, Tick(patience + 1)), Sweep);
    reaped := Finality.Outwaited(computed);
  }

  lemma LateWorkerOverwrites(computed: State, id: JobId, reaped: State)
    requires Reachable(computed) && AboutToFinish(computed, 0) && computed.workers[0].jobId == id
    requires reaped == Finality.Outwaited(computed)
    ensures id in reaped.db.jobs && reaped.db.jobs[id].status == FAILED && WorkerCan(reaped, 0, Finalise)
    ensures id in AfterWorker(reaped, 0, Finalise).db.jobs
    ensures AfterWorker(reaped, 0, Finalise).db.jobs[id].status == SUCCEEDED
  {
    ReachableHasInv(computed);
    Finality.LateWorkerOverwritesTheReaper(computed, 0);
  }

  lemma ReapedThenFinished(computed: State, id: JobId) returns (s: State, step: Step)
    requires Reachable(computed) && AboutToFinish(computed, 0) && computed.workers[0].jobId == id
    ensures Reachable(s) && s.settings == computed.settings && Enabled(s, step)
    ensures id in s.db.jobs && id in After(s, step).db.jobs
    ensures s.db.jobs[id].status == FAILED && After(s, step).db.jobs[id].status == SUCCEEDED
  {
    s := ReapedIsReachable(computed);
    step := WorkerDoes(0, Finalise);
    LateWorkerOverwrites(computed, id, s);
    assert Enabled(s, step) && After(s, step) == AfterWorker(s, 0, Finalise);
  }

  /** Terminal is not always final: a worker that reports late turns the reaper's `failed` into `succeeded`. */
  lemma ATerminalStatusCanChange(settings: Settings, p: Payload, id: JobId, createdAt: Moment)
    returns (s: State, step: Step)
    requires settings.maxActiveJobs >= 1 && ValidRequest(p) && p.epsilon > 0
    ensures Reachable(s) && s.settings == settings && Enabled(s, step)
    ensures id in s.db.jobs && id in After(s, step).db.jobs
    ensures s.db.jobs[id].status == FAILED && After(s, step).db.jobs[id].status == SUCCEEDED
  {
    var claimed := ClaimedIsReachable(settings, p, id, createdAt);
    var computed := ComputedIsReachable(claimed, id, Rows(id, p.attacks));
    s, step := ReapedThenFinished(computed, id);
  }

  // --------------------------------------------------------------- the other two overwrites

  lemma CancelledIsReachable(settings: Settings, p: Payload, id: JobId, createdAt: Moment) returns (s: State)
    requires settings.maxActiveJobs >= 1 && ValidRequest(p) && p.epsilon > 0
    ensures Reachable(s) && s.settings == settings && id in s.db.jobs && s.db.jobs[id].status == CANCELLED
    ensures s.submitters == OneInserted(settings, p, id, createdAt).submitters
  {
    var inserted := OneInserted(settings, p, id, createdAt);
    OneInsertedIsReachable(settings, p, id, createdAt);
    Next(inserted, Cancel(0, id));
    var arrived := After(inserted, Cancel(0, id));
    Next(arrived, CancellerDoes(0, ConditionalUpdate));
    s := After(arrived, CancellerDoes(0, ConditionalUpdate));
  }

  /** A client cancels a job whose enqueue then raises: recording that turns `cancelled` into `failed`. */
  lemma ACancelledJobCanFail(settings: Settings, p: Payload, id: JobId, createdAt: Moment, message: string)
    returns (s: State, step: Step)
    requires settings.maxActiveJobs >= 1 && ValidRequest(p) && p.epsilon > 0
    ensures Reachable(s) && s.settings == settings && step == SubmitterDoes(0, MarkEnqueueFailed(message))
    ensures Enabled(s, step) && id in s.db.jobs && id in After(s, step).db.jobs
    ensures s.db.jobs[id].status == CANCELLED && After(s, step).db.jobs[id].status == FAILED
  {
    var cancelled := CancelledIsReachable(settings, p, id, createdAt);
    Next(cancelled, SubmitterDoes(0, EnqueueRaise));
    s, step := After(cancelled, SubmitterDoes(0, EnqueueRaise)), SubmitterDoes(0, MarkEnqueueFailed(message));
  }

  lemma FinishedIsReachable(computed: State, id: JobId) returns (s: State)
    requires Reachable(computed) && AboutToFinish(computed, 0) && computed.workers[0].jobId == id
    ensures Reachable(s) && s.settings == computed.settings && id in s.db.jobs && s.db.jobs[id].status == SUCCEEDED
    ensures 0 in s.workers && s.workers[0].jobId == id && s.workers[0].pc.Finalised?
  {
    ReachableHasInv(computed);
    s := After(computed, WorkerDoes(0, Finalise));
    Finality.FinalisingRow(computed, s, 0);
    FinaliseNeverCollides(computed, 0);
    Next(computed, WorkerDoes(0, Finalise));
  }

  lemma RaisingIsReachable(finished: State, id: JobId) returns (s: State)
    requires Reachable(finished) && id in finished.db.jobs && finished.db.jobs[id].status == SUCCEEDED
    requires 0 in finished.workers && finished.workers[0].jobId == id && finished.workers[0].pc.Finalised?
    ensures Reachable(s) && s.db == finished.db && s.settings == finished.settings
    ensures 0 in s.workers && s.workers[0].jobId == id && s.workers[0].pc == HandlerLoaded(s.db.jobs[id])
  {
    Next(finished, WorkerDoes(0, Raise));
    var raising := After(finished, WorkerDoes(0, Raise));
    Next(raising, WorkerDoes(0, HandlerLoad));
    s := After(raising, WorkerDoes(0, HandlerLoad));
  }

  /** An exception after the commit of the success, in logging it, turns `succeeded` into `failed`. */
  lemma ASucceededJobCanFail(settings: Settings, p: Payload, id: JobId, createdAt: Moment, message: string)
    returns (s: State, step: Step)
    requires settings.maxActiveJobs >= 1 && ValidRequest(p) && p.epsilon > 0
    ensures Reachable(s) && s.settings == settings && step == WorkerDoes(0, HandlerMarkFailed(message))
    ensures Enabled(s, step) && id in s.db.jobs && id in After(s, step).db.jobs
    ensures s.db.jobs[id].status == SUCCEEDED && After(s, step).db.jobs[id].status == FAILED
  {
    var claimed := ClaimedIsReachable(settings, p, id, createdAt);
    var computed := ComputedIsReachable(claimed, id, Rows(id, p.attacks));
    var finished := FinishedIsReachable(computed, id);
    s := RaisingIsReachable(finished, id);
    step := WorkerDoes(0, HandlerMarkFailed(message));
  }
}
