/** Every step keeps the invariant and lets every row only evolve. */
module Preservation {
  import opened Prelude
  import opened Fingerprint
  import opened Models
  import opened Protocol
  import opened Invariants

  // ------------------------------------------------------ what each actor leaves alone

  lemma SubmitterFrame(s: State, t: State, x: nat, a: SubmitterAction)
    requires SubmitterCan(s, x, a) && t == AfterSubmitter(s, x, a)
    ensures t.workers == s.workers && s.queue <= t.queue && s.pushed <= t.pushed
    ensures x in t.submitters && t.submitters == s.submitters[x := t.submitters[x]]
  {
  }

  lemma WorkerFrame(s: State, t: State, w: nat, a: WorkerAction)
    requires WorkerCan(s, w, a) && t == AfterWorker(s, w, a)
    ensures t.submitters == s.submitters && t.queue == s.queue && t.pushed == s.pushed
    ensures w in t.workers && t.workers == s.workers[w := t.workers[w]] && t.workers[w].jobId == s.workers[w].jobId
  {
  }

  lemma CancellerFrame(s: State, t: State, c: nat, a: CancellerAction)
    requires CancellerCan(s, c, a) && t == AfterCanceller(s, c, a)
    ensures t.submitters == s.submitters && t.workers == s.workers && t.pushed == s.pushed
    ensures forall id | id in t.queue :: id in s.queue
  {
  }

  // ------------------------------------------------- what survives a database change

  lemma SubmissionsSurvive(s: State, t: State)
    requires SubmissionsOk(s) && DbEvolves(s.db, t.db)
    requires t.settings == s.settings && t.submitters == s.submitters && t.pushed == s.pushed
    ensures SubmissionsOk(t)
  {
  }

  lemma CancellersSurvive(s: State, t: State)
    requires CancellersOk(s) && DbEvolves(s.db, t.db) && t.cancellers == s.cancellers
    ensures CancellersOk(t)
  {
    forall c | c in t.cancellers ensures CancellerOk(t.db, t.cancellers[c]) {
      var me := s.cancellers[c];
      assert CancellerOk(s.db, me) && Evolves(s.db.jobs[me.jobId], t.db.jobs[me.jobId]);
    }
  }

  lemma WorkerSurvives(a: Database, b: Database, me: Worker)
    requires WorkerOk(a, me) && DbEvolves(a, b)
    requires me.Working() ==>
      b.jobs[me.jobId].status in {RUNNING, FAILED} && ResultsOf(b.results, me.jobId) == ResultsOf(a.results, me.jobId)
    ensures WorkerOk(b, me)
  {
    if me.claimed || me.pc.HandlerLoaded? {
      assert Evolves(a.jobs[me.jobId], b.jobs[me.jobId]);
    }
  }

  /** No working worker's row leaves {running, failed}. */
  ghost predicate WorkersUndisturbed(s: State, t: State) {
    forall w | w in s.workers && s.workers[w].Working() ::
      s.workers[w].jobId in t.db.jobs && t.db.jobs[s.workers[w].jobId].status in {RUNNING, FAILED}
  }

  lemma ExecutionsSurvive(s: State, t: State)
    requires ExecutionsOk(s) && DbEvolves(s.db, t.db) && t.workers == s.workers
    requires t.db.results == s.db.results && WorkersUndisturbed(s, t)
    ensures ExecutionsOk(t)
  {
    forall w | w in t.workers ensures WorkerOk(t.db, t.workers[w]) {
      WorkerSurvives(s.db, t.db, s.workers[w]);
    }
  }

  lemma SameDbDisturbsNoOne(s: State, t: State)
    requires ExecutionsOk(s) && t.db == s.db
    ensures WorkersUndisturbed(s, t) && DbEvolves(s.db, t.db)
  {
    forall w | w in s.workers && s.workers[w].Working()
      ensures s.workers[w].jobId in t.db.jobs && t.db.jobs[s.workers[w].jobId].status in {RUNNING, FAILED}
    {
      assert WorkerOk(s.db, s.workers[w]);
    }
  }

  /** One existing row changes; the change is one of those the protocol makes outside finalising. */
  ghost predicate RowStep(s: State, t: State, id: JobId) {
    id in s.db.jobs && id in t.db.jobs
    && t.db == s.db.(jobs := s.db.jobs[id := t.db.jobs[id]])
    && t.now == s.now && t.lastSweep == s.lastSweep && t.settings == s.settings
    && Evolves(s.db.jobs[id], t.db.jobs[id]) && RowOk(t.db.jobs[id], s.now)
    && (t.db.jobs[id].status == SUCCEEDED ==> s.db.jobs[id].status == SUCCEEDED)
    && (t.db.jobs[id].status == RUNNING ==> s.db.jobs[id].status == RUNNING || t.db.jobs[id].startedAt == Some(s.now))
  }

  lemma RowStepKeepsTables(s: State, t: State, id: JobId)
    requires TablesOk(s) && RowStep(s, t, id)
    ensures TablesOk(t)
  {
  }

  lemma RowStepEvolves(s: State, t: State, id: JobId)
    requires RowStep(s, t, id)
    ensures DbEvolves(s.db, t.db)
  {
  }

  /** A row step on `id` disturbs no worker, provided a worker on `id` keeps a row it may still write. */
  lemma RowStepDisturbsNoOne(s: State, t: State, id: JobId)
    requires RowStep(s, t, id) && ExecutionsOk(s)
    requires s.db.jobs[id].status in {RUNNING, FAILED} ==> t.db.jobs[id].status in {RUNNING, FAILED}
    ensures WorkersUndisturbed(s, t)
  {
    forall w | w in s.workers && s.workers[w].Working()
      ensures s.workers[w].jobId in t.db.jobs && t.db.jobs[s.workers[w].jobId].status in {RUNNING, FAILED}
    {
      assert WorkerOk(s.db, s.workers[w]);
    }
  }

  /** The new state is good and no row went backwards. */
  ghost predicate Keeps(s: State, t: State) {
    Inv(t) && DbEvolves(s.db, t.db)
  }

  /** A step that leaves the database, the clock and the settings alone. */
  ghost predicate QuietStep(s: State, t: State) {
    t.db == s.db && t.now == s.now && t.lastSweep == s.lastSweep && t.settings == s.settings
  }

  lemma QuietStepKeeps(s: State, t: State)
    requires Inv(s) && QuietStep(s, t)
    ensures TablesOk(t) && DbEvolves(s.db, t.db)
    ensures t.submitters == s.submitters && t.pushed == s.pushed ==> SubmissionsOk(t)
    ensures t.cancellers == s.cancellers ==> CancellersOk(t)
    ensures t.workers == s.workers ==> ExecutionsOk(t)
  {
  }

  /** A row step, seen before any actor moves. */
  lemma RowStepKeeps(s: State, u: State, id: JobId)
    requires Inv(s) && RowStep(s, u, id) && u == s.(db := u.db)
    requires s.db.jobs[id].status in {RUNNING, FAILED} ==> u.db.jobs[id].status in {RUNNING, FAILED}
    ensures Keeps(s, u)
  {
    RowStepKeepsTables(s, u, id);
    RowStepEvolves(s, u, id);
    RowStepDisturbsNoOne(s, u, id);
    SubmissionsSurvive(s, u);
    CancellersSurvive(s, u);
    ExecutionsSurvive(s, u);
  }

  // ------------------------------------------------------------- clock and reaper

  lemma TickKeepsInv(s: State, elapsed: nat)
    requires Inv(s)
    ensures Inv(After(s, Tick(elapsed))) && DbEvolves(s.db, After(s, Tick(elapsed)).db)
  {
    var t := After(s, Tick(elapsed));
    SameDbDisturbsNoOne(s, t);
    SubmissionsSurvive(s, t);
    CancellersSurvive(s, t);
    ExecutionsSurvive(s, t);
  }

  lemma SweepKeepsRows(s: State, t: State)
    requires RowsOk(s) && t == After(s, Sweep)
    ensures RowsOk(t) && DbEvolves(s.db, t.db)
  {
    forall id | id in s.db.jobs ensures Evolves(s.db.jobs[id], t.db.jobs[id]) && RowOk(t.db.jobs[id], t.now) {
      assert RowOk(s.db.jobs[id], s.now);
    }
  }

  lemma SweepKeepsResults(s: State, t: State)
    requires ResultsOk(s) && t == After(s, Sweep)
    ensures ResultsOk(t)
  {
    assert t.db.results == s.db.results;
  }

  lemma SweepKeepsKeys(s: State, t: State)
    requires FingerprintsOk(s) && KeysUnique(s.db) && t == After(s, Sweep)
    ensures FingerprintsOk(t) && KeysUnique(t.db)
  {
  }

  /** Right after a sweep nothing is overdue. */
  lemma SweepLeavesNothingOverdue(s: State, t: State)
    requires t == After(s, Sweep)
    ensures SweptOk(t)
  {
  }

  lemma SweepKeepsTables(s: State)
    requires TablesOk(s)
    ensures TablesOk(After(s, Sweep)) && DbEvolves(s.db, After(s, Sweep).db)
  {
    var t := After(s, Sweep);
    SweepKeepsRows(s, t);
    SweepKeepsKeys(s, t);
    SweepKeepsResults(s, t);
    SweepLeavesNothingOverdue(s, t);
  }

  lemma SweepDisturbsNoOne(s: State)
    requires ExecutionsOk(s)
    ensures WorkersUndisturbed(s, After(s, Sweep))
  {
    forall w | w in s.workers && s.workers[w].Working()
      ensures After(s, Sweep).db.jobs[s.workers[w].jobId].status in {RUNNING, FAILED}
    {
      assert WorkerOk(s.db, s.workers[w]);
    }
  }

  lemma SweepKeepsInv(s: State)
    requires Inv(s)
    ensures Inv(After(s, Sweep)) && DbEvolves(s.db, After(s, Sweep).db)
  {
    var t := After(s, Sweep);
    SweepKeepsTables(s);
    SubmissionsSurvive(s, t);
    CancellersSurvive(s, t);
    SweepDisturbsNoOne(s);
    ExecutionsSurvive(s, t);
  }

  // ----------------------------------------------------------------- submitters

  /** A call moves on without changing which row it owns, or gives up. */
  lemma SubmitterMoveKeepsSubmissions(s: State, t: State, x: nat)
    requires SubmissionsOk(s) && x in s.submitters && x in t.submitters
    requires t.db == s.db && t.settings == s.settings && t.submitters == s.submitters[x := t.submitters[x]]
    requires SubmitterOk(t, t.submitters[x]) && !t.submitters[x].pc.Inserted?
    requires Owned(t.submitters[x]) == None || Owned(t.submitters[x]) == Owned(s.submitters[x])
    requires t.pushed == s.pushed ||
      (s.submitters[x].pc.Inserted? && t.pushed == s.pushed + multiset{s.submitters[x].pc.id})
    ensures SubmissionsOk(t)
  {
    assert SubmitterOk(s, s.submitters[x]);
    forall y | y in t.submitters && t.submitters[y].pc.Inserted? ensures t.submitters[y].pc.id !in t.pushed {
      assert y != x && s.submitters[y].pc.id !in s.pushed;
      assert Owned(s.submitters[x]) != Owned(s.submitters[y]);
    }
  }

  lemma QuietSubmitterStep(s: State, x: nat, a: SubmitterAction)
    requires SubmissionsOk(s) && SubmitterCan(s, x, a) && !a.Commit? && !a.MarkEnqueueFailed?
    ensures SubmissionsOk(AfterSubmitter(s, x, a)) && AfterSubmitter(s, x, a).db == s.db
  {
    var t := AfterSubmitter(s, x, a);
    assert SubmitterOk(s, s.submitters[x]);
    SubmitterMoveKeepsSubmissions(s, t, x);
  }

  lemma ArrivalKeepsSubmissions(s: State, t: State, x: nat)
    requires SubmissionsOk(s) && x !in s.submitters && x in t.submitters
        && t == s.(submitters := s.submitters[x := t.submitters[x]])
    requires t.submitters[x].pc == Arrived && SubmitterOk(t, t.submitters[x])
    ensures SubmissionsOk(t)
  {
  }

  lemma SubmitKeepsInv(s: State, t: State, x: nat, payload: Payload, key: Option<string>)
    requires Inv(s) && x !in s.submitters && ValidRequest(payload)
    requires t == s.(submitters := s.submitters[x := Submitter(payload, key, Arrived)])
    ensures Keeps(s, t)
  {
    QuietStepKeeps(s, t);
    ArrivalKeepsSubmissions(s, t, x);
  }

  lemma QuietSubmitterStepKeepsInv(s: State, t: State, x: nat, a: SubmitterAction)
    requires Inv(s) && SubmitterCan(s, x, a) && !a.Commit? && !a.MarkEnqueueFailed? && t == AfterSubmitter(s, x, a)
    ensures Keeps(s, t)
  {
    QuietSubmitterStep(s, x, a);
    QuietStepKeeps(s, t);
  }

  // -------------------------------------------------------- submitters: the insert

  /** The shape of the state after a successful insert. */
  ghost predicate InsertStep(s: State, t: State, x: nat, id: JobId) {
    x in s.submitters && x in t.submitters && id !in s.db.jobs && id in t.db.jobs
    && t.submitters[x].pc == Inserted(id, t.db.jobs[id])
    && t == s.(db := InsertJob(s.db, id, t.db.jobs[id]),
        submitters := s.submitters[x := s.submitters[x].(pc := t.submitters[x].pc)])
    && Insertable(s.db, id, t.db.jobs[id])
    && exists createdAt :: t.db.jobs[id] == NewJob(s.settings, s.submitters[x].payload, s.submitters[x].key, createdAt)
  }

  lemma InsertKeepsRows(s: State, t: State, x: nat, id: JobId)
    requires RowsOk(s) && SweptOk(s) && InsertStep(s, t, x, id) && SubmitterOk(s, s.submitters[x])
    ensures RowsOk(t) && SweptOk(t) && DbEvolves(s.db, t.db)
  {
  }

  lemma InsertKeepsKeys(s: State, t: State, x: nat, id: JobId)
    requires FingerprintsOk(s) && KeysUnique(s.db) && InsertStep(s, t, x, id)
    ensures FingerprintsOk(t) && KeysUnique(t.db)
  {
  }

  lemma InsertKeepsResults(s: State, t: State, x: nat, id: JobId)
    requires ResultsOk(s) && InsertStep(s, t, x, id)
    ensures ResultsOk(t)
  {
    assert ResultsOf(t.db.results, id) == [];
  }

  lemma InsertKeepsTables(s: State, t: State, x: nat, id: JobId)
    requires TablesOk(s) && InsertStep(s, t, x, id) && SubmitterOk(s, s.submitters[x])
    ensures TablesOk(t) && DbEvolves(s.db, t.db)
  {
    InsertKeepsRows(s, t, x, id);
    InsertKeepsKeys(s, t, x, id);
    InsertKeepsResults(s, t, x, id);
  }

  lemma InsertKeepsSubmissions(s: State, t: State, x: nat, id: JobId)
    requires SubmissionsOk(s) && InsertStep(s, t, x, id)
    ensures SubmissionsOk(t)
  {
    forall y | y in s.submitters ensures Owned(s.submitters[y]) != Some(id) {
      assert SubmitterOk(s, s.submitters[y]);
    }
    assert id !in s.pushed;
    forall y | y in t.submitters ensures SubmitterOk(t, t.submitters[y]) {
      assert SubmitterOk(s, s.submitters[y]);
    }
  }

  lemma CollisionKeepsSubmissions(s: State, t: State, x: nat)
    requires SubmissionsOk(s) && x in s.submitters && s.submitters[x].pc.Counted?
    requires exists pc: SubmitterPc :: (pc.Refused? || pc.Collided?) && t == SubmitterMoves(s, x, pc)
    ensures SubmissionsOk(t)
  {
    assert SubmitterOk(s, s.submitters[x]);
    SubmitterMoveKeepsSubmissions(s, t, x);
  }

  lemma InsertDisturbsNoOne(s: State, t: State, x: nat, id: JobId)
    requires ExecutionsOk(s) && InsertStep(s, t, x, id)
    ensures WorkersUndisturbed(s, t)
  {
    forall w | w in s.workers && s.workers[w].Working()
      ensures s.workers[w].jobId in t.db.jobs && t.db.jobs[s.workers[w].jobId].status in {RUNNING, FAILED}
    {
      assert WorkerOk(s.db, s.workers[w]);
    }
  }

  lemma InsertKeepsInv(s: State, t: State, x: nat, id: JobId)
    requires Inv(s) && InsertStep(s, t, x, id)
    ensures Keeps(s, t)
  {
    assert SubmitterOk(s, s.submitters[x]);
    InsertKeepsTables(s, t, x, id);
    InsertKeepsSubmissions(s, t, x, id);
    InsertDisturbsNoOne(s, t, x, id);
    CancellersSurvive(s, t);
    ExecutionsSurvive(s, t);
  }

  lemma CommitKeepsInv(s: State, t: State, x: nat, a: SubmitterAction)
    requires Inv(s) && SubmitterCan(s, x, a) && a.Commit? && t == AfterSubmitter(s, x, a)
    ensures Keeps(s, t)
  {
    assert SubmitterOk(s, s.submitters[x]);
    if Insertable(s.db, a.newId, NewJob(s.settings, s.submitters[x].payload, s.submitters[x].key, a.createdAt)) {
      InsertKeepsInv(s, t, x, a.newId);
    } else {
      CollisionKeepsSubmissions(s, t, x);
      QuietStepKeeps(s, t);
    }
  }

  // --------------------------------------------- submitters: the failed enqueue

  lemma EnqueueFailureIsARowStep(s: State, x: nat, a: SubmitterAction)
    requires TablesOk(s) && SubmitterCan(s, x, a) && a.MarkEnqueueFailed? && SubmitterOk(s, s.submitters[x])
    ensures var t, id := AfterSubmitter(s, x, a), s.submitters[x].pc.id;
            RowStep(s, t, id) && t.db.jobs[id].status == FAILED
  {
    var me := s.submitters[x];
    assert RowOk(s.db.jobs[me.pc.id], s.now);
    FlushFailedRow(s.db.jobs[me.pc.id], me.pc.job, Text(Truncated(a.message)), s.now);
  }

  lemma EnqueueFailureKeepsInv(s: State, t: State, x: nat, a: SubmitterAction)
    requires Inv(s) && SubmitterCan(s, x, a) && a.MarkEnqueueFailed? && t == AfterSubmitter(s, x, a)
    ensures Keeps(s, t)
  {
    var u := s.(db := t.db);
    assert SubmitterOk(s, s.submitters[x]);
    EnqueueFailureIsARowStep(s, x, a);
    RowStepKeeps(s, u, s.submitters[x].pc.id);
    SubmitterMoveKeepsSubmissions(u, t, x);
    QuietStepKeeps(u, t);
  }

  // ----------------------------------------------------------------- cancellers

  lemma CancelArrivesKeepsInv(s: State, t: State, c: nat, id: JobId)
    requires Inv(s) && c !in s.cancellers && id in s.db.jobs
    requires t == s.(cancellers := s.cancellers[c := Canceller(id, Found, false)])
    ensures Keeps(s, t)
  {
    QuietStepKeeps(s, t);
  }

  lemma CancelIsARowStep(s: State, t: State, id: JobId)
    requires TablesOk(s) && IsQueued(s.db, id) && t.db == CancelJob(s.db, id, s.now)
    requires t.now == s.now && t.lastSweep == s.lastSweep && t.settings == s.settings
    ensures RowStep(s, t, id)
  {
    assert RowOk(s.db.jobs[id], s.now);
  }

  lemma CancellerMoves(s: State, t: State, c: nat, a: CancellerAction)
    requires RowsOk(s) && CancellersOk(s) && CancellerCan(s, c, a) && t == AfterCanceller(s, c, a)
    requires CancellersOk(s.(db := t.db))
    ensures CancellersOk(t)
  {
    assert CancellerOk(s.db, s.cancellers[c]);
    assert CancellerOk(t.db, s.cancellers[c]);
    assert RowOk(s.db.jobs[s.cancellers[c].jobId], s.now);
    assert CancellerOk(t.db, t.cancellers[c]);
  }

  lemma CancellerStepKeepsInv(s: State, t: State, c: nat, a: CancellerAction)
    requires Inv(s) && CancellerCan(s, c, a) && t == AfterCanceller(s, c, a)
    ensures Keeps(s, t)
  {
    var u := s.(db := t.db);
    if a.ConditionalUpdate? && IsQueued(s.db, s.cancellers[c].jobId) {
      CancelIsARowStep(s, u, s.cancellers[c].jobId);
      RowStepKeeps(s, u, s.cancellers[c].jobId);
    }
    CancellerMoves(s, t, c, a);
    QuietStepKeeps(u, t);
  }

  // -------------------------------------------------------------------- workers

  lemma DeliveryKeepsExecutions(s: State, t: State, w: nat, id: JobId)
    requires ExecutionsOk(s) && w !in s.workers && t.db == s.db
    requires t.workers == s.workers[w := Worker(id, Delivered, false)]
    ensures ExecutionsOk(t)
  {
  }

  lemma DeliverKeepsInv(s: State, t: State, w: nat, id: JobId, consumed: bool)
    requires Inv(s) && w !in s.workers && QuietStep(s, t)
    requires t.submitters == s.submitters && t.pushed == s.pushed && t.cancellers == s.cancellers
    requires t.workers == s.workers[w := Worker(id, Delivered, false)]
    ensures Keeps(s, t)
  {
    QuietStepKeeps(s, t);
    DeliveryKeepsExecutions(s, t, w, id);
  }

  /** One worker moves on; it claims only what no one else has claimed. */
  lemma WorkerMoveKeepsExecutions(s: State, t: State, w: nat)
    requires ExecutionsOk(s) && w in s.workers && w in t.workers
    requires t.db == s.db && t.workers == s.workers[w := t.workers[w]] && t.workers[w].jobId == s.workers[w].jobId
    requires WorkerOk(t.db, t.workers[w])
    requires !t.workers[w].claimed || s.workers[w].claimed ||
      forall v | v in s.workers && s.workers[v].claimed :: s.workers[v].jobId != s.workers[w].jobId
    ensures ExecutionsOk(t)
  {
  }

  ghost predicate QuietWorkerAction(a: WorkerAction) {
    a.Raise? || a.Load? || a.Compute? || a.Return? || a.HandlerLoad? || a.WorkerDies?
  }

  lemma QuietWorkerMove(s: State, w: nat, a: WorkerAction)
    requires RowsOk(s) && WorkerCan(s, w, a) && QuietWorkerAction(a) && WorkerOk(s.db, s.workers[w])
    ensures WorkerOk(s.db, AfterWorker(s, w, a).workers[w])
  {
    if s.workers[w].jobId in s.db.jobs {
      assert RowOk(s.db.jobs[s.workers[w].jobId], s.now);
    }
  }

  lemma QuietWorkerStepKeepsInv(s: State, t: State, w: nat, a: WorkerAction)
    requires Inv(s) && WorkerCan(s, w, a) && QuietWorkerAction(a) && t == AfterWorker(s, w, a)
    ensures Keeps(s, t)
  {
    assert WorkerOk(s.db, s.workers[w]);
    QuietWorkerMove(s, w, a);
    WorkerMoveKeepsExecutions(s, t, w);
    QuietStepKeeps(s, t);
  }

  lemma ClaimIsARowStep(s: State, t: State, id: JobId)
    requires TablesOk(s) && IsQueued(s.db, id) && t.db == ClaimJob(s.db, id, s.now)
    requires t.now == s.now && t.lastSweep == s.lastSweep && t.settings == s.settings
    ensures RowStep(s, t, id) && t.db.jobs[id].status == RUNNING && ResultsOf(t.db.results, id) == []
  {
    assert RowOk(s.db.jobs[id], s.now);
  }

  lemma NoOneElseClaimed(s: State, id: JobId)
    requires ExecutionsOk(s) && IsQueued(s.db, id)
    ensures forall v | v in s.workers && s.workers[v].claimed :: s.workers[v].jobId != id
  {
    forall v | v in s.workers && s.workers[v].claimed ensures s.workers[v].jobId != id {
      assert WorkerOk(s.db, s.workers[v]);
    }
  }

  lemma ClaimKeepsInv(s: State, t: State, w: nat)
    requires Inv(s) && WorkerCan(s, w, Claim) && t == AfterWorker(s, w, Claim)
    ensures Keeps(s, t)
  {
    var u, id := s.(db := t.db), s.workers[w].jobId;
    assert WorkerOk(s.db, s.workers[w]);
    if IsQueued(s.db, id) {
      ClaimIsARowStep(s, u, id);
      RowStepKeeps(s, u, id);
      NoOneElseClaimed(s, id);
    }
    WorkerMoveKeepsExecutions(u, t, w);
    QuietStepKeeps(u, t);
  }

  lemma HandlerFailureIsARowStep(s: State, w: nat, a: WorkerAction)
    requires TablesOk(s) && WorkerCan(s, w, a) && a.HandlerMarkFailed? && WorkerOk(s.db, s.workers[w])
    ensures var t, id := AfterWorker(s, w, a), s.workers[w].jobId;
            RowStep(s, t, id) && t.db.jobs[id].status.IsTerminal()
            && (t.db.jobs[id].status == FAILED || t.db.jobs[id].status == s.db.jobs[id].status)
  {
    var me := s.workers[w];
    assert RowOk(s.db.jobs[me.jobId], s.now);
    FlushFailedRow(s.db.jobs[me.jobId], me.pc.job, Text(Truncated(a.message)), s.now);
  }

  lemma EndingIsFine(s: State, w: nat)
    requires ExecutionsOk(s) && w in s.workers
    ensures WorkerOk(s.db, s.workers[w].(pc := Ended))
  {
    assert WorkerOk(s.db, s.workers[w]);
  }

  lemma HandlerFailureKeepsInv(s: State, t: State, w: nat, a: WorkerAction)
    requires Inv(s) && WorkerCan(s, w, a) && a.HandlerMarkFailed? && t == AfterWorker(s, w, a)
    ensures Keeps(s, t)
  {
    var u := s.(db := t.db);
    assert WorkerOk(s.db, s.workers[w]);
    HandlerFailureIsARowStep(s, w, a);
    RowStepKeeps(s, u, s.workers[w].jobId);
    EndingIsFine(u, w);
    WorkerMoveKeepsExecutions(u, t, w);
    QuietStepKeeps(u, t);
  }

  // ---------------------------------------------------------- workers: finalising

  /** The result rows a finalising worker adds never break the UNIQUE constraint. */
  lemma FinaliseNeverCollides(s: State, w: nat)
    requires Inv(s) && w in s.workers && s.workers[w].pc.Computed?
    ensures ResultsInsertable(s.db.results, s.workers[w].pc.rows)
  {
    var me := s.workers[w];
    assert WorkerOk(s.db, me);
    NoResultsOf(s.db.results, me.jobId);
    assert RowOk(s.db.jobs[me.jobId], s.now);
  }

  /** The state after a successful finalising commit. */
  ghost predicate FinaliseStep(s: State, t: State, w: nat) {
    w in s.workers && s.workers[w].pc.Computed? && s.workers[w].jobId in s.db.jobs
    && t == WorkerMoves(s, w, Finalised).(
              db := MarkSucceeded(s.db, s.workers[w].jobId, s.workers[w].pc.job, s.workers[w].pc.rows, s.now))
  }

  lemma FinaliseRow(s: State, t: State, w: nat)
    requires TablesOk(s) && FinaliseStep(s, t, w) && WorkerOk(s.db, s.workers[w])
    ensures var id := s.workers[w].jobId;
            Evolves(s.db.jobs[id], t.db.jobs[id]) && RowOk(t.db.jobs[id], s.now) && t.db.jobs[id].status == SUCCEEDED
  {
    var me := s.workers[w];
    assert RowOk(s.db.jobs[me.jobId], s.now);
    FlushSucceededRow(s.db.jobs[me.jobId], me.pc.job, s.now);
  }

  lemma FinaliseResults(s: State, t: State, w: nat, other: JobId)
    requires FinaliseStep(s, t, w) && WorkerOk(s.db, s.workers[w])
    ensures var id := s.workers[w].jobId;
            ResultsOf(t.db.results, other) == if other == id then s.workers[w].pc.rows
                else ResultsOf(s.db.results, other)
  {
    var me := s.workers[w];
    ResultsOfAppended(s.db.results, me.pc.rows, me.jobId, other);
  }

  lemma FinaliseKeepsResults(s: State, t: State, w: nat)
    requires TablesOk(s) && FinaliseStep(s, t, w) && WorkerOk(s.db, s.workers[w])
    ensures ResultsOk(t)
  {
    var me := s.workers[w];
    FinaliseRow(s, t, w);
    assert RowOk(s.db.jobs[me.jobId], s.now);
    forall id | id !in t.db.jobs ensures ResultsOf(t.db.results, id) == [] {
      FinaliseResults(s, t, w, id);
    }
    forall id | id in t.db.jobs
      ensures var rows := ResultsOf(t.db.results, id);
              (rows == [] || Complete(rows, id, t.db.jobs[id].payload.attacks))
              && (t.db.jobs[id].status == SUCCEEDED ==> rows != [])
              && (t.db.jobs[id].status == QUEUED ==> rows == [])
    {
      FinaliseResults(s, t, w, id);
    }
  }

  lemma FinaliseKeepsRows(s: State, t: State, w: nat)
    requires TablesOk(s) && FinaliseStep(s, t, w) && WorkerOk(s.db, s.workers[w])
    ensures RowsOk(t) && SweptOk(t) && DbEvolves(s.db, t.db)
  {
    FinaliseRow(s, t, w);
  }

  lemma FinaliseKeepsKeys(s: State, t: State, w: nat)
    requires FingerprintsOk(s) && KeysUnique(s.db) && FinaliseStep(s, t, w)
    ensures FingerprintsOk(t) && KeysUnique(t.db)
  {
    var id := s.workers[w].jobId;
    assert t.db.jobs[id].idempotencyKey == s.db.jobs[id].idempotencyKey;
  }

  lemma FinaliseKeepsTables(s: State, t: State, w: nat)
    requires TablesOk(s) && FinaliseStep(s, t, w) && WorkerOk(s.db, s.workers[w])
    ensures TablesOk(t) && DbEvolves(s.db, t.db)
  {
    FinaliseKeepsRows(s, t, w);
    FinaliseKeepsKeys(s, t, w);
    FinaliseKeepsResults(s, t, w);
  }

  lemma FinaliseKeepsExecutions(s: State, t: State, w: nat)
    requires TablesOk(s) && ExecutionsOk(s) && FinaliseStep(s, t, w)
    ensures ExecutionsOk(t)
  {
    assert WorkerOk(s.db, s.workers[w]);
    FinaliseKeepsTables(s, t, w);
    FinaliseRow(s, t, w);
    forall v | v in t.workers ensures WorkerOk(t.db, t.workers[v]) {
      if v != w {
        var me := s.workers[v];
        assert WorkerOk(s.db, me);
        assert me.Working() ==> me.jobId != s.workers[w].jobId;
        FinaliseResults(s, t, w, me.jobId);
        WorkerSurvives(s.db, t.db, me);
      }
    }
  }

  lemma FinaliseKeepsInv(s: State, w: nat)
    requires Inv(s) && WorkerCan(s, w, Finalise)
    ensures Keeps(s, AfterWorker(s, w, Finalise)) && FinaliseStep(s, AfterWorker(s, w, Finalise), w)
  {
    var t := AfterWorker(s, w, Finalise);
    FinaliseNeverCollides(s, w);
    assert WorkerOk(s.db, s.workers[w]);
    FinaliseKeepsTables(s, t, w);
    FinaliseKeepsExecutions(s, t, w);
    SubmissionsSurvive(s, t);
    CancellersSurvive(s, t);
  }

  // ------------------------------------------------------------------- all steps

  lemma SubmitterStepKeepsInv(s: State, t: State, x: nat, a: SubmitterAction)
    requires Inv(s) && SubmitterCan(s, x, a) && t == AfterSubmitter(s, x, a)
    ensures Keeps(s, t)
  {
    match a
    case Commit(_, _) => CommitKeepsInv(s, t, x, a);
    case MarkEnqueueFailed(_) => EnqueueFailureKeepsInv(s, t, x, a);
    case _ => QuietSubmitterStepKeepsInv(s, t, x, a);
  }

  lemma WorkerStepKeepsInv(s: State, t: State, w: nat, a: WorkerAction)
    requires Inv(s) && WorkerCan(s, w, a) && t == AfterWorker(s, w, a)
    ensures Keeps(s, t)
  {
    match a
    case Claim => ClaimKeepsInv(s, t, w);
    case Finalise => FinaliseKeepsInv(s, w);
    case HandlerMarkFailed(_) => HandlerFailureKeepsInv(s, t, w, a);
    case _ => QuietWorkerStepKeepsInv(s, t, w, a);
  }

  /** The invariant is inductive, and no step moves any row backwards. */
  lemma StepKeepsInv(s: State, step: Step)
    requires Inv(s) && Enabled(s, step)
    ensures Keeps(s, After(s, step))
  {
    var t := After(s, step);
    match step
    case Tick(elapsed) => TickKeepsInv(s, elapsed);
    case Sweep => SweepKeepsInv(s);
    case Submit(x, payload, key) => SubmitKeepsInv(s, t, x, payload, key);
    case SubmitterDoes(x, a) => SubmitterStepKeepsInv(s, t, x, a);
    case Cancel(c, id) => CancelArrivesKeepsInv(s, t, c, id);
    case CancellerDoes(c, a) => CancellerStepKeepsInv(s, t, c, a);
    case Deliver(w, id, consumed) => DeliverKeepsInv(s, t, w, id, consumed);
    case WorkerDoes(w, a) => WorkerStepKeepsInv(s, t, w, a);
  }

  /** Every state of every interleaving satisfies the invariant. */
  lemma {:induction false} ReachableInv(r: Run, i: nat)
    requires r.Valid() && i < |r.states|
    ensures Inv(r.states[i])
  {
    if i == 0 {
      InitiallyInv(r.states[0]);
    } else {
      ReachableInv(r, i - 1);
      StepKeepsInv(r.states[i - 1], r.steps[i - 1]);
    }
  }

  lemma RunStep(r: Run, i: nat)
    requires r.Valid() && i < r.Length()
    ensures Inv(r.states[i]) && Enabled(r.states[i], r.steps[i]) && r.states[i + 1] == After(r.states[i], r.steps[i])
  {
    ReachableInv(r, i);
  }

  lemma NextEvolves(r: Run, i: nat)
    requires r.Valid() && i < r.Length()
    ensures DbEvolves(r.states[i].db, r.states[i + 1].db)
  {
    RunStep(r, i);
    StepKeepsInv(r.states[i], r.steps[i]);
  }

  lemma {:induction false} EvolvingChain(states: seq<State>, i: nat, j: nat)
    requires i <= j < |states| && forall k | i <= k < j :: DbEvolves(states[k].db, states[k + 1].db)
    ensures DbEvolves(states[i].db, states[j].db)
    decreases j - i
  {
    if i < j {
      EvolvingChain(states, i, j - 1);
      assert DbEvolves(states[j - 1].db, states[j - 1 + 1].db);
      EvolvesIsTransitive(states[i].db, states[j - 1].db, states[j].db);
    }
  }

  /** Between any two moments of a run rows only evolve, and none disappears. */
  lemma RunEvolves(r: Run, i: nat, j: nat)
    requires r.Valid() && i <= j < |r.states|
    ensures DbEvolves(r.states[i].db, r.states[j].db)
  {
    forall k | i <= k < j ensures DbEvolves(r.states[k].db, r.states[k + 1].db) {
      NextEvolves(r, k);
    }
    EvolvingChain(r.states, i, j);
  }
}
