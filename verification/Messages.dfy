/** The explanation a terminal job carries: which rows have an `error_message`, and what may be in it. */
module Messages {
  import opened Prelude
  import opened Models
  import opened Protocol
  import opened Invariants
  import opened Preservation
  import opened Finality
  import Delivery

  /** The reaper's sentence, or at most 1000 characters. */
  ghost predicate Presentable(m: Option<ErrorMessage>) {
    m.Some? ==> m.value.PresumedDead? || |m.value.text| <= 1000
  }

  /** A failed row is explained; a queued, running or cancelled one has no message. */
  ghost predicate MessageOk(job: Job) {
    Presentable(job.errorMessage)
    && match job.status
       case FAILED => job.errorMessage.Some?
       case SUCCEEDED => true
       case _ => job.errorMessage.None?
  }

  ghost predicate RowMessagesOk(db: Database) {
    forall id | id in db.jobs :: MessageOk(db.jobs[id])
  }

  /** What a worker has loaded was such a row, and what made it so has not been undone. */
  ghost predicate LoadedOk(db: Database, me: Worker) {
    (me.pc.Loaded? || me.pc.Computed? || me.pc.HandlerLoaded? ==>
       MessageOk(me.pc.job)
       && (me.pc.job.status == FAILED ==> me.jobId in db.jobs && db.jobs[me.jobId].status in {FAILED, SUCCEEDED}))
    && (me.pc.HandlerLoaded? && me.pc.job.status == SUCCEEDED && me.pc.job.errorMessage.Some? ==>
          me.jobId in db.jobs && ResultsOf(db.results, me.jobId) != [] && db.jobs[me.jobId].errorMessage.Some?)
  }

  ghost predicate MessagesOk(s: State) {
    RowMessagesOk(s.db) && forall w | w in s.workers :: LoadedOk(s.db, s.workers[w])
  }

  // ------------------------------------------------------------------ rows under one step

  /** A row that has ended stays failed or succeeded; a published one keeps a message it has. */
  ghost predicate RowKeeps(a: Database, b: Database, id: JobId) {
    id in a.jobs ==>
      id in b.jobs
      && (a.jobs[id].status in {FAILED, SUCCEEDED} ==> b.jobs[id].status in {FAILED, SUCCEEDED})
      && (ResultsOf(a.results, id) != [] ==>
            ResultsOf(b.results, id) != [] && (a.jobs[id].errorMessage.Some? ==> b.jobs[id].errorMessage.Some?))
  }

  ghost predicate Moves(a: Database, b: Database) {
    RowMessagesOk(b) && forall id | id in a.jobs :: RowKeeps(a, b, id)
  }

  lemma OtherRowsStay(s: State, t: State, x: nat, a: SubmitterAction, id: JobId)
    requires SubmitterCan(s, x, a) && t == AfterSubmitter(s, x, a) && id in t.db.jobs
    requires !(a.MarkEnqueueFailed? && id == s.submitters[x].pc.id)
    ensures t.db.results == s.db.results
    ensures if id in s.db.jobs then t.db.jobs[id] == s.db.jobs[id] else MessageOk(t.db.jobs[id])
  {
  }

  /** Recording a failure explains the row it fails. */
  lemma FlushFailedMessage(row: Job, loaded: Job, message: string, now: int)
    requires MessageOk(row) && MessageOk(loaded)
    requires loaded.status == FAILED ==> row.status in {FAILED, SUCCEEDED}
    requires loaded.status == SUCCEEDED && loaded.errorMessage.Some? ==> row.errorMessage.Some?
    ensures var r := Flush(row, loaded, FAILED, Some(Text(Truncated(message))), now);
            MessageOk(r) && r.status in {FAILED, SUCCEEDED} && (row.errorMessage.Some? ==> r.errorMessage.Some?)
  {
  }

  lemma SubmitterMovesRow(s: State, t: State, x: nat, a: SubmitterAction, id: JobId)
    requires RowMessagesOk(s.db) && SubmitterCan(s, x, a) && SubmitterOk(s, s.submitters[x])
    requires t == AfterSubmitter(s, x, a) && id in t.db.jobs
    ensures MessageOk(t.db.jobs[id]) && t.db.results == s.db.results && RowKeeps(s.db, t.db, id)
  {
    if a.MarkEnqueueFailed? && id == s.submitters[x].pc.id {
      FlushFailedMessage(s.db.jobs[id], s.submitters[x].pc.job, a.message, s.now);
    } else {
      OtherRowsStay(s, t, x, a, id);
    }
  }

  lemma SubmitterMovesRows(s: State, t: State, x: nat, a: SubmitterAction)
    requires SubmittersOk(s) && RowMessagesOk(s.db) && SubmitterCan(s, x, a) && t == AfterSubmitter(s, x, a)
    ensures Moves(s.db, t.db)
  {
    assert SubmitterOk(s, s.submitters[x]);
    forall id | id in t.db.jobs
      ensures MessageOk(t.db.jobs[id]) && RowKeeps(s.db, t.db, id)
    {
      SubmitterMovesRow(s, t, x, a, id);
    }
  }

  /** A success erases the message it has loaded, and no other. */
  lemma FlushSucceededMessage(row: Job, loaded: Job, now: int)
    requires MessageOk(row) && row.status in {RUNNING, FAILED}
    requires MessageOk(loaded) && loaded.status in {RUNNING, FAILED}
    requires loaded.status == FAILED ==> row.status == FAILED
    ensures var r := Flush(row, loaded, SUCCEEDED, None, now);
            r.status == SUCCEEDED && MessageOk(r)
            && (r.errorMessage.Some? <==> row.status == FAILED && loaded.status == RUNNING)
  {
  }

  lemma HandlerMovesRows(s: State, t: State, w: nat, a: WorkerAction)
    requires RowMessagesOk(s.db) && WorkerCan(s, w, a) && a.HandlerMarkFailed? && t == AfterWorker(s, w, a)
    requires LoadedOk(s.db, s.workers[w])
    ensures Moves(s.db, t.db)
  {
    var me := s.workers[w];
    FlushFailedMessage(s.db.jobs[me.jobId], me.pc.job, a.message, s.now);
  }

  lemma FinaliseMovesRow(s: State, t: State, w: nat)
    requires RowMessagesOk(s.db) && FinaliseStep(s, t, w) && RowsOk(s)
    requires LoadedOk(s.db, s.workers[w]) && WorkerOk(s.db, s.workers[w])
    ensures var id := s.workers[w].jobId;
            id in t.db.jobs && t.db.jobs[id].status == SUCCEEDED && MessageOk(t.db.jobs[id])
            && (t.db.jobs[id].errorMessage.Some?
                <==> s.db.jobs[id].status == FAILED && s.workers[w].pc.job.status == RUNNING)
  {
    var me := s.workers[w];
    assert RowOk(s.db.jobs[me.jobId], s.now);
    FlushSucceededMessage(s.db.jobs[me.jobId], me.pc.job, s.now);
  }

  lemma FinaliseMovesRows(s: State, t: State, w: nat)
    requires RowMessagesOk(s.db) && FinaliseStep(s, t, w) && RowsOk(s)
    requires LoadedOk(s.db, s.workers[w]) && WorkerOk(s.db, s.workers[w])
    ensures Moves(s.db, t.db)
  {
    FinaliseMovesRow(s, t, w);
    forall id | id in s.db.jobs ensures RowKeeps(s.db, t.db, id) {
      FinaliseResults(s, t, w, id);
    }
  }

  lemma QuietWorkerMovesRows(s: State, t: State, w: nat, a: WorkerAction)
    requires RowMessagesOk(s.db) && WorkerCan(s, w, a) && t == AfterWorker(s, w, a)
    requires !a.HandlerMarkFailed? && !a.Finalise?
    ensures Moves(s.db, t.db)
  {
    assert t.db.results == s.db.results;
  }

  lemma WorkerMovesRows(s: State, t: State, w: nat, a: WorkerAction)
    requires Inv(s) && MessagesOk(s) && WorkerCan(s, w, a) && t == AfterWorker(s, w, a)
    ensures Moves(s.db, t.db)
  {
    assert WorkerOk(s.db, s.workers[w]) && LoadedOk(s.db, s.workers[w]);
    match a
    case Finalise =>
      FinaliseKeepsInv(s, w);
      FinaliseMovesRows(s, t, w);
    case HandlerMarkFailed(_) => HandlerMovesRows(s, t, w, a);
    case _ => QuietWorkerMovesRows(s, t, w, a);
  }

  lemma CancelMovesRows(s: State, t: State, c: nat, a: CancellerAction)
    requires RowMessagesOk(s.db) && CancellerCan(s, c, a) && t == AfterCanceller(s, c, a)
    ensures Moves(s.db, t.db)
  {
    assert t.db.results == s.db.results;
  }

  lemma SweepMovesRows(db: Database, cutoff: int, now: int)
    requires RowMessagesOk(db)
    ensures Moves(db, SweepJobs(db, cutoff, now))
  {
  }

  lemma OthersMoveRows(s: State, t: State, step: Step)
    requires RowMessagesOk(s.db) && Enabled(s, step) && t == After(s, step) && !step.SubmitterDoes? && !step.WorkerDoes?
    ensures Moves(s.db, t.db)
  {
    match step
    case CancellerDoes(c, a) => CancelMovesRows(s, t, c, a);
    case Sweep => SweepMovesRows(s.db, Cutoff(s), s.now);
    case _ =>
  }

  // ----------------------------------------------------------- what workers have loaded

  lemma LoadedSurvives(a: Database, b: Database, me: Worker)
    requires LoadedOk(a, me) && Moves(a, b)
    ensures LoadedOk(b, me)
  {
    assert me.jobId in a.jobs ==> RowKeeps(a, b, me.jobId);
  }

  /** A row just loaded is what it is. */
  lemma FreshLoad(s: State, me: Worker)
    requires RowMessagesOk(s.db) && ResultsOk(s) && me.jobId in s.db.jobs
    requires me.pc == Loaded(s.db.jobs[me.jobId]) || me.pc == HandlerLoaded(s.db.jobs[me.jobId])
    ensures LoadedOk(s.db, me)
  {
    assert MessageOk(s.db.jobs[me.jobId]);
  }

  lemma OwnLoad(s: State, t: State, w: nat, a: WorkerAction)
    requires RowMessagesOk(s.db) && ResultsOk(s) && WorkerCan(s, w, a) && t == AfterWorker(s, w, a)
    requires LoadedOk(s.db, s.workers[w])
    ensures w in t.workers && LoadedOk(s.db, t.workers[w])
  {
    if a.Load? || (a.HandlerLoad? && s.workers[w].jobId in s.db.jobs) {
      FreshLoad(s, t.workers[w]);
    }
  }

  lemma WorkerKeepsLoads(s: State, t: State, w: nat, a: WorkerAction)
    requires Inv(s) && MessagesOk(s) && WorkerCan(s, w, a) && t == AfterWorker(s, w, a) && Moves(s.db, t.db)
    ensures MessagesOk(t)
  {
    WorkerFrame(s, t, w, a);
    OwnLoad(s, t, w, a);
    LoadedSurvives(s.db, t.db, t.workers[w]);
    forall v | v in t.workers && v != w ensures LoadedOk(t.db, t.workers[v]) {
      LoadedSurvives(s.db, t.db, s.workers[v]);
    }
  }

  lemma OthersKeepLoads(s: State, t: State, step: Step)
    requires MessagesOk(s) && Enabled(s, step) && t == After(s, step) && !step.WorkerDoes? && Moves(s.db, t.db)
    ensures MessagesOk(t)
  {
    Delivery.OthersLeaveWorkers(s, t, step);
    forall v | v in t.workers ensures LoadedOk(t.db, t.workers[v]) {
      if v in s.workers {
        LoadedSurvives(s.db, t.db, s.workers[v]);
      }
    }
  }

  lemma StepKeepsMessages(s: State, t: State, step: Step)
    requires Inv(s) && MessagesOk(s) && Enabled(s, step) && t == After(s, step)
    ensures MessagesOk(t)
  {
    match step
    case WorkerDoes(w, a) =>
      WorkerMovesRows(s, t, w, a);
      WorkerKeepsLoads(s, t, w, a);
    case SubmitterDoes(x, a) =>
      SubmitterMovesRows(s, t, x, a);
      OthersKeepLoads(s, t, step);
    case _ =>
      OthersMoveRows(s, t, step);
      OthersKeepLoads(s, t, step);
  }

  lemma NextMessages(r: Run, i: nat)
    requires r.Valid() && i < r.Length() && MessagesOk(r.states[i])
    ensures MessagesOk(r.states[i + 1])
  {
    RunStep(r, i);
    StepKeepsMessages(r.states[i], r.states[i + 1], r.steps[i]);
  }

  lemma {:induction false} ReachableMessages(r: Run, i: nat)
    requires r.Valid() && i < |r.states|
    ensures MessagesOk(r.states[i])
  {
    if i > 0 {
      ReachableMessages(r, i - 1);
      NextMessages(r, i - 1);
    }
  }

  // ------------------------------------------------------------------------- main results

  /**
   * In every reachable state a failed job carries an explanation, the reaper's or one of at
   * most 1000 characters, and a queued, running or cancelled job carries none.
   */
  lemma FailuresAreExplained(r: Run, i: nat, id: JobId)
    requires r.Valid() && i < |r.states| && id in r.states[i].db.jobs
    ensures var job := r.states[i].db.jobs[id];
            (job.status == FAILED ==> job.errorMessage.Some?)
            && (job.status in {QUEUED, RUNNING, CANCELLED} ==> job.errorMessage == None)
            && (job.errorMessage.Some? ==>
                  job.errorMessage.value.PresumedDead? || |job.errorMessage.value.text| <= 1000)
  {
    ReachableMessages(r, i);
    assert MessageOk(r.states[i].db.jobs[id]);
  }

  /** A read without results answers that there is no such job, or its status and why it failed, if it did. */
  lemma UnreadyResultsAreExplained(r: Run, i: nat, id: JobId)
    requires r.Valid() && i < |r.states| && GetJobResults(r.states[i].db, id).Err?
    ensures var s, error := r.states[i], GetJobResults(r.states[i].db, id).error;
            (error == NotFound <==> id !in s.db.jobs)
            && (id in s.db.jobs ==>
                  error == ResultsNotReady(s.db.jobs[id].status, s.db.jobs[id].errorMessage)
                  && error.status in {QUEUED, RUNNING, FAILED, CANCELLED}
                  && (error.errorMessage.Some? <==> error.status == FAILED))
  {
    if id in r.states[i].db.jobs {
      FailuresAreExplained(r, i, id);
    }
  }

  /**
   * A success is committed with an old message exactly when the job was failed behind its
   * worker's back: the row is `failed` by then and was `running` when the worker loaded it.
   */
  lemma SuccessKeepsAMessageExactly(r: Run, i: nat, w: nat)
    requires r.Valid() && i < r.Length() && r.steps[i] == WorkerDoes(w, Finalise)
    ensures w in r.states[i].workers && r.states[i].workers[w].pc.Computed?
    ensures var s, t, id := r.states[i], r.states[i + 1], r.states[i].workers[w].jobId;
            id in s.db.jobs && id in t.db.jobs && t.db.jobs[id].status == SUCCEEDED
            && (t.db.jobs[id].errorMessage.Some?
                <==> s.db.jobs[id].status == FAILED && s.workers[w].pc.job.status == RUNNING)
  {
    RunStep(r, i);
    ReachableMessages(r, i);
    var s := r.states[i];
    assert WorkerOk(s.db, s.workers[w]) && LoadedOk(s.db, s.workers[w]);
    FinaliseKeepsInv(s, w);
    FinaliseMovesRow(s, r.states[i + 1], w);
  }

  // ------------------------------------------------- under the three operating conditions

  ghost predicate SuccessesBare(s: State) {
    forall id | id in s.db.jobs && s.db.jobs[id].status == SUCCEEDED :: s.db.jobs[id].errorMessage == None
  }

  lemma OnlyFinalisingWorkersSucceed(s: State, t: State, w: nat, a: WorkerAction, id: JobId)
    requires WorkerCan(s, w, a) && t == AfterWorker(s, w, a) && id in t.db.jobs && t.db.jobs[id].status == SUCCEEDED
    requires id in s.db.jobs ==> s.db.jobs[id].status != SUCCEEDED
    ensures a.Finalise? && s.workers[w].jobId == id
  {
  }

  lemma NoCallSucceeds(s: State, t: State, x: nat, a: SubmitterAction, id: JobId)
    requires SubmitterCan(s, x, a) && t == AfterSubmitter(s, x, a) && id in t.db.jobs
    requires id in s.db.jobs ==> s.db.jobs[id].status != SUCCEEDED
    ensures t.db.jobs[id].status != SUCCEEDED
  {
  }

  /** Only a worker's success makes a row `succeeded`. */
  lemma OnlyFinalisingSucceeds(s: State, t: State, step: Step, id: JobId)
    requires Enabled(s, step) && t == After(s, step) && id in t.db.jobs && t.db.jobs[id].status == SUCCEEDED
    requires id in s.db.jobs ==> s.db.jobs[id].status != SUCCEEDED
    ensures step.WorkerDoes? && step.a.Finalise? && s.workers[step.w].jobId == id
  {
    match step
    case WorkerDoes(w, a) => OnlyFinalisingWorkersSucceed(s, t, w, a, id);
    case SubmitterDoes(x, a) => NoCallSucceeds(s, t, x, a, id);
    case _ =>
  }

  lemma NextSuccessIsBare(r: Run, i: nat, id: JobId)
    requires r.Valid() && Disciplined(r) && i < r.Length() && SuccessesBare(r.states[i])
    requires id in r.states[i + 1].db.jobs && r.states[i + 1].db.jobs[id].status == SUCCEEDED
    ensures r.states[i + 1].db.jobs[id].errorMessage == None
  {
    var s, t, step := r.states[i], r.states[i + 1], r.steps[i];
    RunStep(r, i);
    if id in s.db.jobs && s.db.jobs[id].status == SUCCEEDED {
      NextIsFrozen(r, i, id);
    } else {
      OnlyFinalisingSucceeds(s, t, step, id);
      SuccessKeepsAMessageExactly(r, i, step.w);
      DisciplineHolds(r, i);
      assert LiveRowOk(s, s.workers[step.w]);
    }
  }

  lemma {:induction false} DisciplinedSuccessesAreBare(r: Run, i: nat)
    requires r.Valid() && Disciplined(r) && i < |r.states|
    ensures SuccessesBare(r.states[i])
  {
    if i > 0 {
      DisciplinedSuccessesAreBare(r, i - 1);
      forall id | id in r.states[i].db.jobs && r.states[i].db.jobs[id].status == SUCCEEDED
        ensures r.states[i].db.jobs[id].errorMessage == None
      {
        NextSuccessIsBare(r, i - 1, id);
      }
    }
  }
}
