/** What a client and an operator may rely on about one job, over whole runs. */
module Lifecycle {
  import opened Prelude
  import opened Models
  import opened Protocol
  import opened Invariants
  import opened Preservation

  // --------------------------------------------------------------- the state graph

  /** queued < running < terminal, and nothing about the request ever changes. */
  lemma RankNeverDrops(r: Run, i: nat, j: nat, id: JobId)
    requires r.Valid() && i <= j < |r.states| && id in r.states[i].db.jobs
    ensures id in r.states[j].db.jobs
    ensures var a, b := r.states[i].db.jobs[id], r.states[j].db.jobs[id];
            a.status.Rank() <= b.status.Rank() && (b.status == QUEUED ==> a.status == QUEUED)
            && (a.status == RUNNING ==> b.status != QUEUED && b.status != CANCELLED)
            && (a.status in {SUCCEEDED, FAILED, CANCELLED} ==> b.status in {SUCCEEDED, FAILED, CANCELLED})
            && a.payload == b.payload && a.createdAt == b.createdAt && a.idempotencyKey == b.idempotencyKey
  {
    RunEvolves(r, i, j);
    ReachableInv(r, i);
    ReachableInv(r, j);
    assert Evolves(r.states[i].db.jobs[id], r.states[j].db.jobs[id]);
    assert RowOk(r.states[i].db.jobs[id], r.states[i].now) && RowOk(r.states[j].db.jobs[id], r.states[j].now);
  }

  /** Which timestamps a row carries is determined by its status, and they are in order. */
  lemma TimestampsAreCoherent(r: Run, i: nat, id: JobId)
    requires r.Valid() && i < |r.states| && id in r.states[i].db.jobs
    ensures var job := r.states[i].db.jobs[id];
            (job.status == QUEUED ==> job.startedAt == None && job.finishedAt == None)
            && (job.status == RUNNING ==> job.startedAt.Some? && job.finishedAt == None)
            && (job.status in {SUCCEEDED, FAILED, CANCELLED} ==> job.finishedAt.Some?)
            && (job.status == CANCELLED ==> job.startedAt == None)
            && (job.status == SUCCEEDED ==> job.startedAt.Some?)
            && (job.startedAt.Some? && job.finishedAt.Some? ==> job.startedAt.value <= job.finishedAt.value)
  {
    ReachableInv(r, i);
    assert RowOk(r.states[i].db.jobs[id], r.states[i].now);
  }

  /** A row that starts or ends between `s` and `t` carries the time this happened. */
  ghost predicate Stamped(a: Job, b: Job, now: int) {
    (a.status == QUEUED && b.status == RUNNING ==> b == a.(status := RUNNING, startedAt := Some(now)))
    && (b.status == CANCELLED && a.status != CANCELLED ==>
          a.status == QUEUED && b == a.(status := CANCELLED, finishedAt := Some(now)))
    && (a.status in {QUEUED, RUNNING} && b.status in {SUCCEEDED, FAILED} ==>
          b == a.(status := b.status, finishedAt := Some(now), errorMessage := b.errorMessage))
    && (a.status in {QUEUED, RUNNING} && b.status == a.status ==> b == a)
  }

  lemma FlushStamps(row: Job, loaded: Job, status: JobStatus, message: Option<ErrorMessage>, now: int)
    requires status in {SUCCEEDED, FAILED}
    requires row.status in {QUEUED, RUNNING} ==> loaded.status != status && loaded.finishedAt == None
    ensures Stamped(row, Flush(row, loaded, status, message, now), now)
  {
  }

  lemma SubmitterStamps(s: State, t: State, x: nat, a: SubmitterAction, id: JobId)
    requires x in s.submitters && SubmitterOk(s, s.submitters[x]) && SubmitterCan(s, x, a)
    requires t == AfterSubmitter(s, x, a) && id in s.db.jobs
    ensures id in t.db.jobs && Stamped(s.db.jobs[id], t.db.jobs[id], s.now)
  {
    if a.MarkEnqueueFailed? && id == s.submitters[x].pc.id {
      FlushStamps(s.db.jobs[id], s.submitters[x].pc.job, FAILED, Some(Text(Truncated(a.message))), s.now);
    }
  }

  lemma FinaliseStamps(s: State, t: State, w: nat, id: JobId)
    requires w in s.workers && WorkerOk(s.db, s.workers[w]) && WorkerCan(s, w, Finalise)
    requires t == AfterWorker(s, w, Finalise) && id in s.db.jobs
    ensures id in t.db.jobs && Stamped(s.db.jobs[id], t.db.jobs[id], s.now)
  {
    if id == s.workers[w].jobId {
      FlushStamps(s.db.jobs[id], s.workers[w].pc.job, SUCCEEDED, None, s.now);
    }
  }

  lemma HandlerStamps(s: State, t: State, w: nat, message: string, id: JobId)
    requires w in s.workers && WorkerOk(s.db, s.workers[w]) && WorkerCan(s, w, HandlerMarkFailed(message))
    requires t == AfterWorker(s, w, HandlerMarkFailed(message)) && id in s.db.jobs
    ensures id in t.db.jobs && Stamped(s.db.jobs[id], t.db.jobs[id], s.now)
  {
    if id == s.workers[w].jobId {
      FlushStamps(s.db.jobs[id], s.workers[w].pc.job, FAILED, Some(Text(Truncated(message))), s.now);
    }
  }

  lemma WorkerStamps(s: State, t: State, w: nat, a: WorkerAction, id: JobId)
    requires w in s.workers && WorkerOk(s.db, s.workers[w]) && WorkerCan(s, w, a)
    requires t == AfterWorker(s, w, a) && id in s.db.jobs
    ensures id in t.db.jobs && Stamped(s.db.jobs[id], t.db.jobs[id], s.now)
  {
    match a
    case Finalise => FinaliseStamps(s, t, w, id);
    case HandlerMarkFailed(message) => HandlerStamps(s, t, w, message, id);
    case _ =>
  }

  lemma CancellerStamps(s: State, t: State, c: nat, a: CancellerAction, id: JobId)
    requires CancellerCan(s, c, a) && t == AfterCanceller(s, c, a) && id in s.db.jobs
    ensures id in t.db.jobs && Stamped(s.db.jobs[id], t.db.jobs[id], s.now)
  {
  }

  /**
   * A row that starts or ends in a step carries the time of that step and keeps every other
   * column, save for the message of one that succeeds or fails.
   */
  lemma EndsAreStamped(r: Run, i: nat, id: JobId)
    requires r.Valid() && i < r.Length() && id in r.states[i].db.jobs
    ensures id in r.states[i + 1].db.jobs
            && Stamped(r.states[i].db.jobs[id], r.states[i + 1].db.jobs[id], r.states[i].now)
  {
    RunStep(r, i);
    match r.steps[i]
    case SubmitterDoes(x, a) => SubmitterStamps(r.states[i], r.states[i + 1], x, a, id);
    case WorkerDoes(w, a) => WorkerStamps(r.states[i], r.states[i + 1], w, a, id);
    case CancellerDoes(c, a) => CancellerStamps(r.states[i], r.states[i + 1], c, a, id);
    case _ =>
  }

  /** A row appears only by an INSERT, with its submitter's request, and queued. */
  lemma RowsAppearQueued(r: Run, i: nat, id: JobId)
    requires r.Valid() && i < r.Length() && id !in r.states[i].db.jobs && id in r.states[i + 1].db.jobs
    ensures exists x, createdAt ::
              r.steps[i] == SubmitterDoes(x, Commit(id, createdAt)) && x in r.states[i].submitters
              && var me := r.states[i].submitters[x];
              r.states[i + 1].db.jobs[id]
              == Job(me.key, r.states[i].settings.fingerprint(me.payload), me.payload, createdAt, QUEUED, None, None,
                  None)
  {
    assert Enabled(r.states[i], r.steps[i]) && r.states[i + 1] == After(r.states[i], r.steps[i]);
    assert r.steps[i].SubmitterDoes?;
    assert r.steps[i] == SubmitterDoes(r.steps[i].x, Commit(id, r.steps[i].s.createdAt));
  }

  // ------------------------------------------------------------------ claim or cancel

  /** The step is a claim or a cancel of job `id` whose conditional UPDATE matched the row. */
  ghost predicate Settles(s: State, step: Step, id: JobId) {
    Enabled(s, step) && IsQueued(s.db, id) &&
    match step
    case WorkerDoes(w, Claim) => s.workers[w].jobId == id
    case CancellerDoes(c, ConditionalUpdate) => s.cancellers[c].jobId == id
    case _ => false
  }

  /** Over a whole run a job is claimed once, or cancelled once, or neither: never both, never twice. */
  lemma ClaimAndCancelExclude(r: Run, i: nat, j: nat, id: JobId)
    requires r.Valid() && i < j < r.Length()
    ensures !(Settles(r.states[i], r.steps[i], id) && Settles(r.states[j], r.steps[j], id))
  {
    if Settles(r.states[i], r.steps[i], id) {
      assert r.states[i + 1] == After(r.states[i], r.steps[i]);
      assert r.states[i + 1].db.jobs[id].status != QUEUED;
      RankNeverDrops(r, i + 1, j, id);
    }
  }

  /** However often the queue delivers, at most one execution gets past the claim, and none after a cancel. */
  lemma AtMostOneExecution(r: Run, i: nat, v: nat, w: nat)
    requires r.Valid() && i < |r.states| && v in r.states[i].workers && w in r.states[i].workers && v != w
    requires r.states[i].workers[v].jobId == r.states[i].workers[w].jobId
    requires r.states[i].workers[v].Working() || r.states[i].workers[v].pc.Finalised?
    ensures !r.states[i].workers[w].Working() && !r.states[i].workers[w].pc.Finalised?
    ensures forall c | c in r.states[i].cancellers && r.states[i].cancellers[c].jobId == r.states[i].workers[v].jobId ::
              !r.states[i].cancellers[c].won
  {
    var s := r.states[i];
    ReachableInv(r, i);
    assert WorkerOk(s.db, s.workers[v]) && WorkerOk(s.db, s.workers[w]);
    forall c | c in s.cancellers && s.cancellers[c].jobId == s.workers[v].jobId ensures !s.cancellers[c].won {
      assert CancellerOk(s.db, s.cancellers[c]);
    }
  }

  // ------------------------------------------------------------------------ results

  /** A succeeded job has exactly one row per requested attack, in request order; the names are distinct. */
  lemma SucceededMeansComplete(r: Run, i: nat, id: JobId)
    requires r.Valid() && i < |r.states| && id in r.states[i].db.jobs && r.states[i].db.jobs[id].status == SUCCEEDED
    ensures Complete(ResultsOf(r.states[i].db.results, id), id, r.states[i].db.jobs[id].payload.attacks)
    ensures NoDuplicates(r.states[i].db.jobs[id].payload.attacks)
    ensures GetJobResults(r.states[i].db, id) == Ok((r.states[i].db.jobs[id], ResultsOf(r.states[i].db.results, id)))
  {
    ReachableInv(r, i);
    assert RowOk(r.states[i].db.jobs[id], r.states[i].now);
  }

  /** The headline score is the half-up rounding of the mean over one accuracy per requested attack. */
  lemma PublishedScoreIsTheRoundedMean(r: Run, i: nat, id: JobId, rows: seq<JobResult>, score: nat)
    requires r.Valid() && i < |r.states| && GetJobResults(r.states[i].db, id).Ok?
    requires rows == GetJobResults(r.states[i].db, id).value.1
    ensures |rows| == |r.states[i].db.jobs[id].payload.attacks| > 0
    ensures var total := Scoring.Sum(seq(|rows|, n requires 0 <= n < |rows| => rows[n].robustAccuracy));
            DefenceScore(rows) == Some(score)
            <==> 2 * total - |rows| < 2 * (|rows| * score) <= 2 * total + |rows|
  {
    SucceededMeansComplete(r, i, id);
    ReachableInv(r, i);
    assert RowOk(r.states[i].db.jobs[id], r.states[i].now);
    assert Accuracies(rows) == seq(|rows|, n requires 0 <= n < |rows| => rows[n].robustAccuracy);
    Scoring.ScoreIsTheRoundedMean(Accuracies(rows), score);
  }

  /** No finalising commit of any run is rejected by the UNIQUE constraint on results. */
  lemma ResultsNeverCollide(r: Run, i: nat, w: nat)
    requires r.Valid() && i < r.Length() && r.steps[i] == WorkerDoes(w, Finalise)
    ensures ResultsInsertable(r.states[i].db.results, r.states[i].workers[w].pc.rows)
    ensures r.states[i + 1].workers[w].pc == Finalised
  {
    ReachableInv(r, i);
    FinaliseNeverCollides(r.states[i], w);
    assert Enabled(r.states[i], r.steps[i]) && r.states[i + 1] == After(r.states[i], r.steps[i]);
  }

  lemma OnlyFinalisingAddsResults(s: State, step: Step)
    requires Enabled(s, step) && !(step.WorkerDoes? && step.a.Finalise?)
    ensures After(s, step).db.results == s.db.results
  {
  }

  lemma FinalisingLeavesPublishedResults(s: State, t: State, w: nat, id: JobId)
    requires Inv(s) && WorkerCan(s, w, Finalise) && t == AfterWorker(s, w, Finalise)
        && ResultsOf(s.db.results, id) != []
    ensures ResultsOf(t.db.results, id) == ResultsOf(s.db.results, id)
  {
    FinaliseKeepsInv(s, w);
    assert WorkerOk(s.db, s.workers[w]);
    FinaliseResults(s, t, w, id);
  }

  /** Result rows appear all at once and are then left alone. */
  lemma StepKeepsPublishedResults(s: State, t: State, step: Step, id: JobId)
    requires Inv(s) && Enabled(s, step) && t == After(s, step) && ResultsOf(s.db.results, id) != []
    ensures ResultsOf(t.db.results, id) == ResultsOf(s.db.results, id)
  {
    if step.WorkerDoes? && step.a.Finalise? {
      FinalisingLeavesPublishedResults(s, t, step.w, id);
    } else {
      OnlyFinalisingAddsResults(s, step);
    }
  }

  /** What is published in `s` is published unchanged in `t`. */
  ghost predicate KeepsPublished(s: State, t: State, id: JobId) {
    ResultsOf(s.db.results, id) != [] ==> ResultsOf(t.db.results, id) == ResultsOf(s.db.results, id)
  }

  lemma NextKeepsPublishedResults(r: Run, k: nat, id: JobId)
    requires r.Valid() && k < r.Length()
    ensures KeepsPublished(r.states[k], r.states[k + 1], id)
  {
    RunStep(r, k);
    if ResultsOf(r.states[k].db.results, id) != [] {
      StepKeepsPublishedResults(r.states[k], r.states[k + 1], r.steps[k], id);
    }
  }

  lemma {:induction false} PublishedChain(states: seq<State>, i: nat, j: nat, id: JobId)
    requires i <= j < |states| && forall k | i <= k < j :: KeepsPublished(states[k], states[k + 1], id)
    ensures KeepsPublished(states[i], states[j], id)
    decreases j - i
  {
    if i < j {
      PublishedChain(states, i, j - 1, id);
      assert KeepsPublished(states[j - 1], states[j - 1 + 1], id);
    }
  }

  lemma PublishedResultsStay(r: Run, i: nat, j: nat, id: JobId)
    requires r.Valid() && i <= j < |r.states| && ResultsOf(r.states[i].db.results, id) != []
    ensures ResultsOf(r.states[j].db.results, id) == ResultsOf(r.states[i].db.results, id)
  {
    forall k | i <= k < j ensures KeepsPublished(r.states[k], r.states[k + 1], id) {
      NextKeepsPublishedResults(r, k, id);
    }
    PublishedChain(r.states, i, j, id);
  }

  /**
   * get_job_results reads the status with one SELECT and the rows with a later one; whatever
   * happens in between, a call that saw `succeeded` returns the complete list.
   */
  lemma ResultsReadIsComplete(r: Run, i: nat, j: nat, id: JobId)
    requires r.Valid() && i <= j < |r.states| && id in r.states[i].db.jobs
        && r.states[i].db.jobs[id].status == SUCCEEDED
    ensures Complete(ResultsOf(r.states[j].db.results, id), id, r.states[i].db.jobs[id].payload.attacks)
  {
    SucceededMeansComplete(r, i, id);
    ReachableInv(r, i);
    PublishedResultsStay(r, i, j, id);
  }
}
