/**
 * When a terminal status is final.  Two writes go through the ORM without looking at the row
 * again, so in general it is not; here is exactly which writes may overwrite one, and the
 * three operating conditions under which none ever does.
 */
module Finality {
  import opened Models
  import opened Protocol
  import opened Invariants
  import opened Preservation

  // ------------------------------------------------------------ exactly which writes

  /** A commit through the ORM that changes the status of the terminal row `id`. */
  ghost predicate OverwritesTerminal(s: State, step: Step, id: JobId)
    requires Enabled(s, step) && id in s.db.jobs
  {
    match step
    case WorkerDoes(w, Finalise) => s.workers[w].jobId == id
    case WorkerDoes(w, HandlerMarkFailed(_)) =>
      s.workers[w].jobId == id && s.db.jobs[id].status != FAILED && s.workers[w].pc.job.status != FAILED
    case SubmitterDoes(x, MarkEnqueueFailed(_)) => s.submitters[x].pc.id == id && s.db.jobs[id].status != FAILED
    case _ => false
  }

  lemma FinalisingRow(s: State, t: State, w: nat)
    requires Inv(s) && WorkerCan(s, w, Finalise) && t == AfterWorker(s, w, Finalise)
    ensures s.workers[w].jobId in s.db.jobs && s.db.jobs[s.workers[w].jobId].status in {RUNNING, FAILED}
    ensures t.db.jobs[s.workers[w].jobId].status == SUCCEEDED
    ensures t.db.jobs == s.db.jobs[s.workers[w].jobId := t.db.jobs[s.workers[w].jobId]]
  {
    FinaliseKeepsInv(s, w);
    assert WorkerOk(s.db, s.workers[w]);
    FinaliseRow(s, t, w);
  }

  lemma WorkerOverwrites(s: State, t: State, w: nat, a: WorkerAction, id: JobId)
    requires WorkerCan(s, w, a) && t == AfterWorker(s, w, a)
    requires id in s.db.jobs && s.db.jobs[id].status.IsTerminal()
    requires a.Finalise? ==>
      s.db.jobs[s.workers[w].jobId].status in {RUNNING, FAILED}
      && t.db.jobs == s.db.jobs[s.workers[w].jobId := t.db.jobs[s.workers[w].jobId]]
      && t.db.jobs[s.workers[w].jobId].status == SUCCEEDED
    ensures id in t.db.jobs
    ensures t.db.jobs[id].status != s.db.jobs[id].status <==> OverwritesTerminal(s, WorkerDoes(w, a), id)
  {
  }

  lemma OthersOverwriteNothing(s: State, t: State, step: Step, id: JobId)
    requires Enabled(s, step) && t == After(s, step) && !step.WorkerDoes? && !step.SubmitterDoes?
    requires id in s.db.jobs && s.db.jobs[id].status.IsTerminal()
    ensures id in t.db.jobs && t.db.jobs[id] == s.db.jobs[id]
  {
  }

  lemma SubmitterOverwrites(s: State, t: State, x: nat, a: SubmitterAction, id: JobId)
    requires SubmittersOk(s) && SubmitterCan(s, x, a) && t == AfterSubmitter(s, x, a)
    requires id in s.db.jobs && s.db.jobs[id].status.IsTerminal()
    ensures id in t.db.jobs
    ensures t.db.jobs[id].status != s.db.jobs[id].status <==> OverwritesTerminal(s, SubmitterDoes(x, a), id)
  {
    assert SubmitterOk(s, s.submitters[x]);
  }

  lemma StepOverwrites(s: State, t: State, step: Step, id: JobId)
    requires Inv(s) && Enabled(s, step) && t == After(s, step)
    requires id in s.db.jobs && s.db.jobs[id].status.IsTerminal()
    ensures id in t.db.jobs && (t.db.jobs[id].status != s.db.jobs[id].status <==> OverwritesTerminal(s, step, id))
  {
    match step
    case WorkerDoes(w, a) =>
      if a.Finalise? {
        FinalisingRow(s, t, w);
      }
      WorkerOverwrites(s, t, w, a, id);
    case SubmitterDoes(x, a) => SubmitterOverwrites(s, t, x, a, id);
    case _ => OthersOverwriteNothing(s, t, step, id);
  }

  /** A terminal status changes exactly when one of the three ORM commits finds it already there. */
  lemma TerminalChangesExactlyWhenOverwritten(r: Run, i: nat, id: JobId)
    requires r.Valid() && i < r.Length() && id in r.states[i].db.jobs
    requires r.states[i].db.jobs[id].status in {SUCCEEDED, FAILED, CANCELLED}
    ensures Enabled(r.states[i], r.steps[i]) && id in r.states[i + 1].db.jobs
    ensures r.states[i + 1].db.jobs[id].status != r.states[i].db.jobs[id].status
            <==> OverwritesTerminal(r.states[i], r.steps[i], id)
  {
    RunStep(r, i);
    StepOverwrites(r.states[i], r.states[i + 1], r.steps[i], id);
  }

  /** The reaper sweeps once every job now running has outlived its patience. */
  ghost function Outwaited(s: State): State {
    After(After(s, Tick(s.settings.jobTimeoutSeconds + s.settings.staleJobGraceSeconds + 1)), Sweep)
  }

  lemma OutwaitedRowFails(s: State, id: JobId)
    requires id in s.db.jobs && s.db.jobs[id].status == RUNNING
    requires s.db.jobs[id].startedAt.Some? && s.db.jobs[id].startedAt.value <= s.now
    ensures id in Outwaited(s).db.jobs && Outwaited(s).db.jobs[id].status == FAILED
    ensures Outwaited(s).workers == s.workers
  {
  }

  lemma OutwaitedIsSwept(s: State, elapsed: nat)
    requires elapsed == s.settings.jobTimeoutSeconds + s.settings.staleJobGraceSeconds + 1
    ensures Outwaited(s) == After(After(s, Tick(elapsed)), Sweep)
  {
  }

  lemma OutwaitedKeepsInv(s: State, elapsed: nat)
    requires Inv(s) && Outwaited(s) == After(After(s, Tick(elapsed)), Sweep)
    ensures Inv(Outwaited(s))
  {
    TickKeepsInv(s, elapsed);
    SweepKeepsInv(After(s, Tick(elapsed)));
  }

  /** Such an overwrite happens whenever a worker outlives the reaper's patience: `failed` becomes `succeeded`. */
  lemma LateWorkerOverwritesTheReaper(s: State, w: nat)
    requires Inv(s) && w in s.workers && s.workers[w].pc.Computed? && s.db.jobs[s.workers[w].jobId].status == RUNNING
    ensures var id := s.workers[w].jobId;
            var reaped := Outwaited(s);
            id in reaped.db.jobs && reaped.db.jobs[id].status == FAILED
            && WorkerCan(reaped, w, Finalise)
            && id in AfterWorker(reaped, w, Finalise).db.jobs
            && AfterWorker(reaped, w, Finalise).db.jobs[id].status == SUCCEEDED
  {
    var reaped := Outwaited(s);
    assert WorkerOk(s.db, s.workers[w]) && RowOk(s.db.jobs[s.workers[w].jobId], s.now);
    OutwaitedRowFails(s, s.workers[w].jobId);
    var patience := s.settings.jobTimeoutSeconds + s.settings.staleJobGraceSeconds;
    OutwaitedIsSwept(s, patience + 1);
    OutwaitedKeepsInv(s, patience + 1);
    FinalisingRow(reaped, AfterWorker(reaped, w, Finalise), w);
  }

  // ------------------------------------------------------------- the three conditions

  /** The worker has started and has recorded nothing yet, neither an outcome nor a failure. */
  ghost predicate InTheMiddle(me: Worker) {
    me.Working() || me.Recovering()
  }

  /** (a) A live worker that claimed the job commits its outcome within timeout plus grace. */
  ghost predicate Punctual(s: State) {
    forall w | w in s.workers && s.workers[w].claimed && InTheMiddle(s.workers[w]) ::
      var id := s.workers[w].jobId;
      id in s.db.jobs && s.db.jobs[id].startedAt.Some? ==>
        s.now <= s.db.jobs[id].startedAt.value + s.settings.jobTimeoutSeconds + s.settings.staleJobGraceSeconds
  }

  /** Somebody other than the submitting call has had the job in hand. */
  ghost predicate Touched(s: State, id: JobId) {
    (exists w :: w in s.workers && s.workers[w].jobId == id)
    || exists c :: c in s.cancellers && s.cancellers[c].jobId == id && s.cancellers[c].won
  }

  /** (b) While a failed enqueue is being recorded, the job has been neither delivered nor cancelled. */
  ghost predicate CleanEnqueueFailure(s: State) {
    forall x | x in s.submitters && s.submitters[x].pc.Raising? :: !Touched(s, s.submitters[x].pc.id)
  }

  /** (c) A worker raises only between a successful claim and its outcome commit. */
  ghost predicate RaisesInside(s: State, step: Step) {
    step.WorkerDoes? && step.a.Raise? && step.w in s.workers ==> s.workers[step.w].Working()
  }

  // --------------------------------------------------- what the conditions guarantee

  /** The call has inserted a row and has not returned. */
  ghost predicate Holding(me: Submitter) {
    me.pc.Inserted? || me.pc.Pushed? || me.pc.Raising?
  }

  /** A row leaves `queued` only through a worker or a cancel, unless its own submitter fails it. */
  ghost predicate HeldRowsOk(s: State) {
    forall x | x in s.submitters && Holding(s.submitters[x]) ::
      IsQueued(s.db, s.submitters[x].pc.id) || Touched(s, s.submitters[x].pc.id)
  }

  ghost predicate LiveRowOk(s: State, me: Worker) {
    me.claimed && me.jobId in s.db.jobs && s.db.jobs[me.jobId].status == RUNNING
  }

  /** A worker in the middle of its job, or recording a failure, finds the row `running`. */
  ghost predicate LiveRowsOk(s: State) {
    forall w | w in s.workers && InTheMiddle(s.workers[w]) :: LiveRowOk(s, s.workers[w])
  }

  lemma DeliveryIsRemembered(s: State, t: State, step: Step, w: nat)
    requires Enabled(s, step) && t == After(s, step) && w in s.workers
    ensures w in t.workers && t.workers[w].jobId == s.workers[w].jobId
  {
    match step
    case WorkerDoes(v, a) => WorkerFrame(s, t, v, a);
    case SubmitterDoes(x, a) => SubmitterFrame(s, t, x, a);
    case CancellerDoes(c, a) => CancellerFrame(s, t, c, a);
    case _ =>
  }

  lemma CancelIsRemembered(s: State, t: State, step: Step, c: nat)
    requires Enabled(s, step) && t == After(s, step) && c in s.cancellers && s.cancellers[c].won
    requires CancellersOk(s)
    ensures c in t.cancellers && t.cancellers[c].jobId == s.cancellers[c].jobId && t.cancellers[c].won
  {
    assert CancellerOk(s.db, s.cancellers[c]);
  }

  lemma TouchedStays(s: State, t: State, step: Step, id: JobId)
    requires CancellersOk(s) && Enabled(s, step) && t == After(s, step) && Touched(s, id)
    ensures Touched(t, id)
  {
    if w :| w in s.workers && s.workers[w].jobId == id {
      DeliveryIsRemembered(s, t, step, w);
    } else {
      var c :| c in s.cancellers && s.cancellers[c].jobId == id && s.cancellers[c].won;
      CancelIsRemembered(s, t, step, c);
    }
  }

  lemma LeavingQueuedIsTouching(s: State, t: State, step: Step, id: JobId)
    requires Enabled(s, step) && t == After(s, step) && IsQueued(s.db, id) && !IsQueued(t.db, id)
    ensures Touched(t, id)
            || (step.SubmitterDoes? && step.s.MarkEnqueueFailed? && s.submitters[step.x].pc.id == id)
  {
    match step
    case WorkerDoes(w, a) => assert t.workers[w].jobId == id;
    case CancellerDoes(c, a) => assert t.cancellers[c].jobId == id && t.cancellers[c].won;
    case _ =>
  }

  // ------------------------------------------------ submitters still holding a row

  lemma HoldingBeforeItsStep(s: State, t: State, y: nat, a: SubmitterAction, x: nat)
    requires SubmitterCan(s, y, a) && t == AfterSubmitter(s, y, a) && x in t.submitters && Holding(t.submitters[x])
    ensures x in s.submitters
    ensures IsQueued(t.db, t.submitters[x].pc.id)
            || (Holding(s.submitters[x]) && t.submitters[x].pc.id == s.submitters[x].pc.id
                && (y == x ==> !a.MarkEnqueueFailed?))
  {
  }

  lemma OthersLeaveSubmitters(s: State, t: State, step: Step, x: nat)
    requires Enabled(s, step) && t == After(s, step) && !step.SubmitterDoes? && x in t.submitters
        && Holding(t.submitters[x])
    ensures x in s.submitters && s.submitters[x] == t.submitters[x]
  {
  }

  /** A call that holds a row after a step held it before, or has just inserted it. */
  lemma HoldingBefore(s: State, t: State, step: Step, x: nat)
    requires Enabled(s, step) && t == After(s, step) && x in t.submitters && Holding(t.submitters[x])
    ensures x in s.submitters
    ensures IsQueued(t.db, t.submitters[x].pc.id)
            || (Holding(s.submitters[x]) && t.submitters[x].pc.id == s.submitters[x].pc.id
                && (step.SubmitterDoes? && step.x == x ==> !step.s.MarkEnqueueFailed?))
  {
    if step.SubmitterDoes? {
      HoldingBeforeItsStep(s, t, step.x, step.s, x);
    } else {
      OthersLeaveSubmitters(s, t, step, x);
    }
  }

  /** No other call records an enqueue failure on a row this call holds. */
  lemma OwnFailureOnly(s: State, t: State, step: Step, x: nat, id: JobId)
    requires SubmissionsOk(s) && Enabled(s, step) && x in s.submitters && Holding(s.submitters[x])
        && s.submitters[x].pc.id == id
    requires step.SubmitterDoes? && step.x == x ==> !step.s.MarkEnqueueFailed?
    ensures !(step.SubmitterDoes? && step.s.MarkEnqueueFailed? && s.submitters[step.x].pc.id == id)
  {
    if step.SubmitterDoes? && step.s.MarkEnqueueFailed? && step.x != x {
      assert Owned(s.submitters[x]) != Owned(s.submitters[step.x]);
    }
  }

  lemma HeldRowStaysOk(s: State, t: State, step: Step, x: nat)
    requires SubmissionsOk(s) && CancellersOk(s) && HeldRowsOk(s) && Enabled(s, step) && t == After(s, step)
    requires x in t.submitters && Holding(t.submitters[x])
    ensures IsQueued(t.db, t.submitters[x].pc.id) || Touched(t, t.submitters[x].pc.id)
  {
    var id := t.submitters[x].pc.id;
    HoldingBefore(s, t, step, x);
    if !IsQueued(t.db, id) {
      if Touched(s, id) {
        TouchedStays(s, t, step, id);
      } else {
        LeavingQueuedIsTouching(s, t, step, id);
        OwnFailureOnly(s, t, step, x, id);
      }
    }
  }

  lemma HeldRowsStayOk(s: State, t: State, step: Step)
    requires Inv(s) && HeldRowsOk(s) && Enabled(s, step) && t == After(s, step)
    ensures HeldRowsOk(t)
  {
    forall x | x in t.submitters && Holding(t.submitters[x])
      ensures IsQueued(t.db, t.submitters[x].pc.id) || Touched(t, t.submitters[x].pc.id)
    {
      HeldRowStaysOk(s, t, step, x);
    }
  }

  // ------------------------------------------------------------- workers in the middle

  lemma LiveRowOwnStep(s: State, t: State, w: nat, a: WorkerAction)
    requires LiveRowsOk(s) && WorkerCan(s, w, a) && t == AfterWorker(s, w, a) && InTheMiddle(t.workers[w])
    requires a.Raise? ==> s.workers[w].Working()
    requires a.Finalise? ==> ResultsInsertable(s.db.results, s.workers[w].pc.rows)
    ensures LiveRowOk(t, t.workers[w])
  {
  }

  lemma LiveRowOtherWorker(s: State, t: State, v: nat, a: WorkerAction, w: nat)
    requires ExecutionsOk(s) && LiveRowsOk(s) && WorkerCan(s, v, a) && t == AfterWorker(s, v, a)
    requires v != w && w in s.workers && InTheMiddle(s.workers[w])
    ensures LiveRowOk(t, s.workers[w])
  {
    if s.workers[v].jobId == s.workers[w].jobId {
      assert !s.workers[v].claimed;
      assert WorkerOk(s.db, s.workers[v]);
    }
  }

  lemma LiveRowWorker(s: State, t: State, v: nat, a: WorkerAction, w: nat)
    requires ExecutionsOk(s) && LiveRowsOk(s) && WorkerCan(s, v, a) && t == AfterWorker(s, v, a)
    requires w in t.workers && InTheMiddle(t.workers[w]) && RaisesInside(s, WorkerDoes(v, a))
    requires a.Finalise? ==> ResultsInsertable(s.db.results, s.workers[v].pc.rows)
    ensures LiveRowOk(t, t.workers[w])
  {
    if v == w {
      LiveRowOwnStep(s, t, w, a);
    } else {
      LiveRowOtherWorker(s, t, v, a, w);
    }
  }

  lemma LiveRowSubmitter(s: State, t: State, x: nat, a: SubmitterAction, w: nat)
    requires LiveRowsOk(s) && CleanEnqueueFailure(s) && SubmitterCan(s, x, a) && t == AfterSubmitter(s, x, a)
    requires w in s.workers && InTheMiddle(s.workers[w])
    ensures LiveRowOk(t, s.workers[w])
  {
    if a.MarkEnqueueFailed? {
      assert !Touched(s, s.submitters[x].pc.id);
    }
  }

  lemma LiveRowCanceller(s: State, t: State, c: nat, a: CancellerAction, w: nat)
    requires LiveRowsOk(s) && CancellerCan(s, c, a) && t == AfterCanceller(s, c, a)
    requires w in s.workers && InTheMiddle(s.workers[w])
    ensures LiveRowOk(t, s.workers[w])
  {
  }

  lemma LiveRowSweep(s: State, t: State, w: nat)
    requires RowsOk(s) && LiveRowsOk(s) && Punctual(s) && t == After(s, Sweep)
    requires w in s.workers && InTheMiddle(s.workers[w])
    ensures LiveRowOk(t, s.workers[w])
  {
    assert RowOk(s.db.jobs[s.workers[w].jobId], s.now);
  }

  lemma LiveRowStaysOk(s: State, t: State, step: Step, w: nat)
    requires ExecutionsOk(s) && LiveRowsOk(s) && Punctual(s) && CleanEnqueueFailure(s) && RaisesInside(s, step)
    requires RowsOk(s) && Enabled(s, step) && t == After(s, step) && w in t.workers && InTheMiddle(t.workers[w])
    requires step.WorkerDoes? && step.a.Finalise? ==> ResultsInsertable(s.db.results, s.workers[step.w].pc.rows)
    ensures LiveRowOk(t, t.workers[w])
  {
    match step
    case WorkerDoes(v, a) => LiveRowWorker(s, t, v, a, w);
    case SubmitterDoes(x, a) => LiveRowSubmitter(s, t, x, a, w);
    case CancellerDoes(c, a) => LiveRowCanceller(s, t, c, a, w);
    case Sweep => LiveRowSweep(s, t, w);
    case _ => assert t.db == s.db && t.workers[w].pc != Delivered ==> t.workers[w] == s.workers[w];
  }

  /** Under the conditions, no commit of anyone else touches the row of a live worker. */
  lemma LiveRowsStayOk(s: State, t: State, step: Step)
    requires Inv(s) && LiveRowsOk(s) && Punctual(s) && CleanEnqueueFailure(s) && RaisesInside(s, step)
    requires Enabled(s, step) && t == After(s, step)
    ensures LiveRowsOk(t)
  {
    if step.WorkerDoes? && step.a.Finalise? {
      FinaliseNeverCollides(s, step.w);
    }
    forall w | w in t.workers && InTheMiddle(t.workers[w]) ensures LiveRowOk(t, t.workers[w]) {
      LiveRowStaysOk(s, t, step, w);
    }
  }

  // ------------------------------------------------------------------ the theorem

  lemma WorkerLeavesTerminalRow(s: State, t: State, w: nat, a: WorkerAction, id: JobId)
    requires LiveRowsOk(s) && WorkerCan(s, w, a) && t == AfterWorker(s, w, a)
    requires id in s.db.jobs && s.db.jobs[id].status.IsTerminal()
    ensures id in t.db.jobs && t.db.jobs[id] == s.db.jobs[id]
  {
  }

  lemma SubmitterLeavesTerminalRow(s: State, t: State, x: nat, a: SubmitterAction, id: JobId)
    requires HeldRowsOk(s) && CleanEnqueueFailure(s) && SubmitterCan(s, x, a) && t == AfterSubmitter(s, x, a)
    requires id in s.db.jobs && s.db.jobs[id].status.IsTerminal()
    ensures id in t.db.jobs && t.db.jobs[id] == s.db.jobs[id]
  {
    if a.MarkEnqueueFailed? {
      assert IsQueued(s.db, s.submitters[x].pc.id);
    }
  }

  /** Under the conditions no step writes a terminal row at all. */
  lemma TerminalRowIsUntouched(s: State, t: State, step: Step, id: JobId)
    requires LiveRowsOk(s) && HeldRowsOk(s) && CleanEnqueueFailure(s)
    requires Enabled(s, step) && t == After(s, step) && id in s.db.jobs && s.db.jobs[id].status.IsTerminal()
    ensures id in t.db.jobs && t.db.jobs[id] == s.db.jobs[id]
  {
    match step
    case SubmitterDoes(x, a) => SubmitterLeavesTerminalRow(s, t, x, a, id);
    case WorkerDoes(w, a) => WorkerLeavesTerminalRow(s, t, w, a, id);
    case _ => OthersOverwriteNothing(s, t, step, id);
  }

  /** All three conditions, along a whole run. */
  ghost predicate Disciplined(r: Run)
    requires r.Valid()
  {
    (forall i | 0 <= i < |r.states| :: Punctual(r.states[i]) && CleanEnqueueFailure(r.states[i]))
    && forall i | 0 <= i < |r.steps| :: RaisesInside(r.states[i], r.steps[i])
  }

  lemma DisciplineStep(r: Run, i: nat)
    requires r.Valid() && Disciplined(r) && i < r.Length() && LiveRowsOk(r.states[i]) && HeldRowsOk(r.states[i])
    ensures LiveRowsOk(r.states[i + 1]) && HeldRowsOk(r.states[i + 1])
  {
    RunStep(r, i);
    HeldRowsStayOk(r.states[i], r.states[i + 1], r.steps[i]);
    LiveRowsStayOk(r.states[i], r.states[i + 1], r.steps[i]);
  }

  lemma {:induction false} DisciplineHolds(r: Run, i: nat)
    requires r.Valid() && Disciplined(r) && i < |r.states|
    ensures LiveRowsOk(r.states[i]) && HeldRowsOk(r.states[i])
  {
    if i > 0 {
      DisciplineHolds(r, i - 1);
      DisciplineStep(r, i - 1);
    }
  }

  /** From one state to the next a terminal row stays as it is. */
  ghost predicate Frozen(s: State, t: State, id: JobId) {
    id in s.db.jobs && s.db.jobs[id].status.IsTerminal() ==> id in t.db.jobs && t.db.jobs[id] == s.db.jobs[id]
  }

  lemma NextIsFrozen(r: Run, i: nat, id: JobId)
    requires r.Valid() && Disciplined(r) && i < r.Length()
    ensures Frozen(r.states[i], r.states[i + 1], id)
  {
    if id in r.states[i].db.jobs && r.states[i].db.jobs[id].status.IsTerminal() {
      RunStep(r, i);
      DisciplineHolds(r, i);
      TerminalRowIsUntouched(r.states[i], r.states[i + 1], r.steps[i], id);
    }
  }

  lemma {:induction false} FrozenStays(states: seq<State>, i: nat, j: nat, id: JobId)
    requires i <= j < |states| && id in states[i].db.jobs && states[i].db.jobs[id].status.IsTerminal()
    requires forall k | i <= k < j :: Frozen(states[k], states[k + 1], id)
    ensures id in states[j].db.jobs && states[j].db.jobs[id] == states[i].db.jobs[id]
    decreases j - i
  {
    if i < j {
      FrozenStays(states, i, j - 1, id);
      assert Frozen(states[j - 1], states[j - 1 + 1], id);
    }
  }

  /** When (a), (b) and (c) hold, a terminal row is final in every column, message and timestamps included. */
  lemma TerminalIsFinal(r: Run, i: nat, j: nat, id: JobId)
    requires r.Valid() && Disciplined(r) && i <= j < |r.states|
    requires id in r.states[i].db.jobs && r.states[i].db.jobs[id].status in {SUCCEEDED, FAILED, CANCELLED}
    ensures id in r.states[j].db.jobs && r.states[j].db.jobs[id] == r.states[i].db.jobs[id]
  {
    forall k | i <= k < j ensures Frozen(r.states[k], r.states[k + 1], id) {
      NextIsFrozen(r, k, id);
    }
    FrozenStays(r.states, i, j, id);
  }
}
