/** The reaper: what one sweep does, and how long a dead worker can keep a job `running`. */
module Recovery {
  import opened Prelude
  import opened Models
  import opened Protocol
  import opened Invariants
  import opened Preservation
  import opened Lifecycle

  // -------------------------------------------------------------------- one sweep

  /** A sweep fails the overdue rows and changes no other; sweeping again at once finds nothing to do. */
  lemma SweepIsExact(db: Database, cutoff: int, now: int)
    ensures forall id | id in db.jobs ::
      id in SweepJobs(db, cutoff, now).jobs
      && (if id in OverdueIds(db, cutoff)
          then
            SweepJobs(db, cutoff, now).jobs[id]
            == db.jobs[id].(status := FAILED, finishedAt := Some(now), errorMessage := Some(PresumedDead))
          else SweepJobs(db, cutoff, now).jobs[id] == db.jobs[id])
    ensures SweepJobs(db, cutoff, now).jobs.Keys == db.jobs.Keys && SweepJobs(db, cutoff, now).results == db.results
    ensures OverdueIds(SweepJobs(db, cutoff, now), cutoff) == {}
    ensures SweepJobs(SweepJobs(db, cutoff, now), cutoff, now) == SweepJobs(db, cutoff, now)
  {
    var once := SweepJobs(db, cutoff, now);
    forall id | id in once.jobs ensures !Overdue(once.jobs[id], cutoff) {
    }
    assert SweepJobs(once, cutoff, now).jobs == once.jobs;
  }

  // ------------------------------------------------------------------------- time

  ghost predicate Later(s: State, t: State) {
    s.now <= t.now && s.settings == t.settings
  }

  lemma {:induction false} LaterChain(states: seq<State>, i: nat, j: nat)
    requires i <= j < |states| && forall k | i <= k < j :: Later(states[k], states[k + 1])
    ensures Later(states[i], states[j])
    decreases j - i
  {
    if i < j {
      LaterChain(states, i, j - 1);
      assert Later(states[j - 1], states[j - 1 + 1]);
    }
  }

  lemma NextClock(r: Run, i: nat)
    requires r.Valid() && i < r.Length()
    ensures r.states[i].now <= r.states[i + 1].now && r.states[i].settings == r.states[i + 1].settings
  {
    assert Enabled(r.states[i], r.steps[i]) && r.states[i + 1] == After(r.states[i], r.steps[i]);
  }

  lemma ClockIsMonotone(r: Run, i: nat, j: nat)
    requires r.Valid() && i <= j < |r.states|
    ensures r.states[i].now <= r.states[j].now && r.states[i].settings == r.states[j].settings
  {
    forall k | i <= k < j ensures Later(r.states[k], r.states[k + 1]) {
      NextClock(r, k);
    }
    LaterChain(r.states, i, j);
  }

  /** The reaper's schedule: the last sweep is at most one grace period old. */
  ghost predicate SweptOnTime(s: State) {
    s.now <= s.lastSweep + s.settings.staleJobGraceSeconds
  }

  /** Nothing is `running` for longer than the timeout and two grace periods, whatever its worker does. */
  lemma NothingRunsForever(r: Run, i: nat, id: JobId)
    requires r.Valid() && i < |r.states| && SweptOnTime(r.states[i])
    requires id in r.states[i].db.jobs && r.states[i].db.jobs[id].status == RUNNING
    ensures var s := r.states[i];
            s.db.jobs[id].startedAt.Some? &&
            s.now <= s.db.jobs[id].startedAt.value + s.settings.jobTimeoutSeconds + 2 * s.settings.staleJobGraceSeconds
  {
    ReachableInv(r, i);
    assert RowOk(r.states[i].db.jobs[id], r.states[i].now);
  }

  // ---------------------------------------------------------------- a dead worker

  /** The worker that claimed the job is gone and has left no results. */
  ghost predicate Abandoned(s: State, w: nat) {
    w in s.workers && s.workers[w].claimed && s.workers[w].pc.Lost? && ResultsOf(s.db.results, s.workers[w].jobId) == []
  }

  /** A worker that has claimed its job and committed no results has no outcome yet, in the except branch too. */
  ghost predicate WithoutOutcome(s: State, w: nat) {
    w in s.workers && s.workers[w].claimed && ResultsOf(s.db.results, s.workers[w].jobId) == []
  }

  lemma DeathAbandons(s: State, t: State, w: nat)
    requires WorkerCan(s, w, WorkerDies) && t == AfterWorker(s, w, WorkerDies) && WithoutOutcome(s, w)
    ensures Abandoned(t, w) && t.workers[w].jobId == s.workers[w].jobId
  {
  }

  lemma OthersLeaveAbandoned(s: State, t: State, step: Step, w: nat)
    requires Enabled(s, step) && t == After(s, step) && Abandoned(s, w) && !(step.WorkerDoes? && step.a.Finalise?)
    ensures Abandoned(t, w) && t.workers[w].jobId == s.workers[w].jobId
  {
    OnlyFinalisingAddsResults(s, step);
  }

  lemma FinaliseLeavesAbandoned(s: State, t: State, v: nat, w: nat)
    requires Inv(s) && WorkerCan(s, v, Finalise) && t == AfterWorker(s, v, Finalise) && Abandoned(s, w)
    ensures Abandoned(t, w) && t.workers[w].jobId == s.workers[w].jobId
  {
    FinaliseKeepsInv(s, v);
    assert WorkerOk(s.db, s.workers[v]);
    assert v != w && s.workers[v].jobId != s.workers[w].jobId;
    FinaliseResults(s, t, v, s.workers[w].jobId);
  }

  lemma NextIsAbandoned(r: Run, i: nat, w: nat)
    requires r.Valid() && i < r.Length() && Abandoned(r.states[i], w)
    ensures Abandoned(r.states[i + 1], w) && r.states[i + 1].workers[w].jobId == r.states[i].workers[w].jobId
  {
    RunStep(r, i);
    if r.steps[i].WorkerDoes? && r.steps[i].a.Finalise? {
      FinaliseLeavesAbandoned(r.states[i], r.states[i + 1], r.steps[i].w, w);
    } else {
      OthersLeaveAbandoned(r.states[i], r.states[i + 1], r.steps[i], w);
    }
  }

  ghost predicate KeepsAbandoned(s: State, t: State, w: nat) {
    Abandoned(s, w) ==> Abandoned(t, w) && t.workers[w].jobId == s.workers[w].jobId
  }

  lemma {:induction false} AbandonedChain(states: seq<State>, i: nat, j: nat, w: nat)
    requires i <= j < |states| && forall k | i <= k < j :: KeepsAbandoned(states[k], states[k + 1], w)
    ensures KeepsAbandoned(states[i], states[j], w)
    decreases j - i
  {
    if i < j {
      AbandonedChain(states, i, j - 1, w);
      assert KeepsAbandoned(states[j - 1], states[j - 1 + 1], w);
    }
  }

  lemma StaysAbandoned(r: Run, i: nat, j: nat, w: nat)
    requires r.Valid() && i <= j < |r.states| && Abandoned(r.states[i], w)
    ensures Abandoned(r.states[j], w) && r.states[j].workers[w].jobId == r.states[i].workers[w].jobId
  {
    forall k | i <= k < j ensures KeepsAbandoned(r.states[k], r.states[k + 1], w) {
      if Abandoned(r.states[k], w) {
        NextIsAbandoned(r, k, w);
      }
    }
    AbandonedChain(r.states, i, j, w);
  }

  lemma AbandonedJobIsRunningOrFailed(s: State, w: nat)
    requires Inv(s) && Abandoned(s, w)
    ensures s.workers[w].jobId in s.db.jobs && s.db.jobs[s.workers[w].jobId].status in {RUNNING, FAILED}
  {
    assert WorkerOk(s.db, s.workers[w]);
    assert RowOk(s.db.jobs[s.workers[w].jobId], s.now);
  }

  /**
   * A worker that dies between its claim and its outcome - while computing, or in the except
   * branch - leaves the job `running` or `failed`; with sweeps on time it is `failed` once the
   * timeout and two grace periods have passed.
   */
  lemma DeadWorkersJobFails(r: Run, i: nat, j: nat, w: nat)
    requires r.Valid() && i < j < |r.states|
    requires r.steps[i] == WorkerDoes(w, WorkerDies) && WithoutOutcome(r.states[i], w)
    ensures var id := r.states[i].workers[w].jobId;
            var s := r.states[j];
            id in s.db.jobs && s.db.jobs[id].status in {RUNNING, FAILED} && s.db.jobs[id].startedAt.Some?
            && (SweptOnTime(s)
                && s.now > s.db.jobs[id].startedAt.value + s.settings.jobTimeoutSeconds
                           + 2 * s.settings.staleJobGraceSeconds
                ==> s.db.jobs[id].status == FAILED)
  {
    RunStep(r, i);
    DeathAbandons(r.states[i], r.states[i + 1], w);
    StaysAbandoned(r, i + 1, j, w);
    ReachableInv(r, j);
    AbandonedJobIsRunningOrFailed(r.states[j], w);
    assert WorkerOk(r.states[j].db, r.states[j].workers[w]);
    if SweptOnTime(r.states[j]) && r.states[j].db.jobs[r.states[i].workers[w].jobId].status == RUNNING {
      NothingRunsForever(r, j, r.states[i].workers[w].jobId);
    }
  }

  // ------------------------------------------------------------- a punctual worker

  /** A sweep fails a row exactly when it is running and its timeout and grace have passed, and changes no other. */
  lemma SweepStepReapsExactly(r: Run, k: nat, id: JobId)
    requires r.Valid() && k < r.Length() && r.steps[k] == Sweep && id in r.states[k].db.jobs
    ensures id in r.states[k + 1].db.jobs
    ensures var s := r.states[k];
            r.states[k + 1].db.jobs[id]
            == if s.db.jobs[id].status == RUNNING && s.db.jobs[id].startedAt.Some?
                  && s.now > s.db.jobs[id].startedAt.value + s.settings.jobTimeoutSeconds
                             + s.settings.staleJobGraceSeconds
               then s.db.jobs[id].(status := FAILED, finishedAt := Some(s.now), errorMessage := Some(PresumedDead))
               else s.db.jobs[id]
  {
    assert r.states[k + 1] == After(r.states[k], r.steps[k]);
  }

  /** A job whose outcome is recorded by started_at + timeout + grace is never reaped, before or after. */
  lemma PunctualJobIsNeverReaped(r: Run, i: nat, j: nat, k: nat, id: JobId)
    requires r.Valid() && i <= j < |r.states| && i <= k < r.Length() && r.steps[k] == Sweep
    requires id in r.states[i].db.jobs && r.states[i].db.jobs[id].status == RUNNING
        && r.states[i].db.jobs[id].startedAt.Some?
    requires id in r.states[j].db.jobs && r.states[j].db.jobs[id].status in {SUCCEEDED, FAILED, CANCELLED}
    requires r.states[j].now <= r.states[i].db.jobs[id].startedAt.value + r.states[i].settings.jobTimeoutSeconds
                                + r.states[i].settings.staleJobGraceSeconds
    ensures id in r.states[k].db.jobs && id in r.states[k + 1].db.jobs
        && r.states[k + 1].db.jobs[id] == r.states[k].db.jobs[id]
  {
    RunEvolves(r, i, k);
    assert Evolves(r.states[i].db.jobs[id], r.states[k].db.jobs[id]);
    SweepStepReapsExactly(r, k, id);
    ClockIsMonotone(r, i, k);
    if k <= j {
      ClockIsMonotone(r, k, j);
    } else {
      RankNeverDrops(r, j, k, id);
    }
  }
}
