/** What every step of the protocol keeps, and therefore what holds in every reachable state. */
module Invariants {
  import opened Prelude
  import opened Models
  import opened Protocol

  // -------------------------------------------------------------- one row over time

  /** What may happen to a row: the request never changes, the rank never drops, the claim time is set once. */
  ghost predicate Evolves(a: Job, b: Job) {
    a.idempotencyKey == b.idempotencyKey && a.fingerprint == b.fingerprint && a.payload == b.payload
    && a.createdAt == b.createdAt
    && a.status.Rank() <= b.status.Rank()
    && (a.status != QUEUED ==> b.startedAt == a.startedAt)
  }

  ghost predicate DbEvolves(a: Database, b: Database) {
    forall id | id in a.jobs :: id in b.jobs && Evolves(a.jobs[id], b.jobs[id])
  }

  // ------------------------------------------------------------------- invariants

  /** Timestamps agree with the status, and the attacks are distinct. */
  ghost predicate RowOk(job: Job, now: int) {
    job.payload.attacks != [] && NoDuplicates(job.payload.attacks)
    && (match job.status
        case QUEUED => job.startedAt == None && job.finishedAt == None
        case RUNNING => job.startedAt.Some? && job.finishedAt == None
        case SUCCEEDED => job.startedAt.Some? && job.finishedAt.Some?
        case FAILED => job.finishedAt.Some?
        case CANCELLED => job.startedAt == None && job.finishedAt.Some?)
    && (job.startedAt.Some? ==> job.startedAt.value <= now)
    && (job.finishedAt.Some? ==> job.finishedAt.value <= now)
    && (job.startedAt.Some? && job.finishedAt.Some? ==> job.startedAt.value <= job.finishedAt.value)
  }

  ghost predicate RowsOk(s: State) {
    forall id | id in s.db.jobs :: RowOk(s.db.jobs[id], s.now)
  }

  ghost predicate FingerprintsOk(s: State) {
    forall id | id in s.db.jobs :: s.db.jobs[id].fingerprint == s.settings.fingerprint(s.db.jobs[id].payload)
  }

  /** Rows without a key never collide; rows with one never share it. */
  ghost predicate KeysUnique(db: Database) {
    forall i, j | i in db.jobs && j in db.jobs && i != j && db.jobs[i].idempotencyKey.Some? ::
      db.jobs[i].idempotencyKey != db.jobs[j].idempotencyKey
  }

  /** A job has no result rows or all of them; `succeeded` has all, `queued` has none. */
  ghost predicate ResultsOk(s: State) {
    && (forall id | id !in s.db.jobs :: ResultsOf(s.db.results, id) == [])
    && forall id | id in s.db.jobs ::
         var rows := ResultsOf(s.db.results, id);
         (rows == [] || Complete(rows, id, s.db.jobs[id].payload.attacks))
         && (s.db.jobs[id].status == SUCCEEDED ==> rows != [])
         && (s.db.jobs[id].status == QUEUED ==> rows == [])
  }

  /** A call that has a job has one with its own key and fingerprint. */
  ghost predicate Matches(s: State, me: Submitter, id: JobId) {
    id in s.db.jobs && s.db.jobs[id].idempotencyKey == me.key
    && s.db.jobs[id].fingerprint == s.settings.fingerprint(me.payload)
  }

  ghost predicate SubmitterOk(s: State, me: Submitter) {
    me.payload.attacks != [] && NoDuplicates(me.payload.attacks)
    && (me.pc.Inserted? || me.pc.Pushed? || me.pc.Raising? ==>
          Matches(s, me, me.pc.id)
          && me.pc.job.status == QUEUED && me.pc.job.finishedAt == None && me.pc.job.errorMessage == None)
    && (me.pc.Returned? ==> Matches(s, me, me.pc.id))
  }

  ghost predicate SubmittersOk(s: State) {
    forall x | x in s.submitters :: SubmitterOk(s, s.submitters[x])
  }

  /** The row this call inserted, while the call remembers it. */
  ghost function Owned(me: Submitter): Option<JobId> {
    if me.pc.Inserted? || me.pc.Pushed? || me.pc.Raising? then Some(me.pc.id)
    else if me.pc.Returned? && !me.pc.replayed then Some(me.pc.id)
    else None
  }

  ghost predicate OwnersDistinct(s: State) {
    forall x, y | x in s.submitters && y in s.submitters && x != y && Owned(s.submitters[x]).Some? ::
      Owned(s.submitters[x]) != Owned(s.submitters[y])
  }

  ghost predicate PushedOnce(s: State) {
    (forall id | id in s.pushed :: id in s.db.jobs && s.pushed[id] == 1)
    && forall x | x in s.submitters && s.submitters[x].pc.Inserted? :: s.submitters[x].pc.id !in s.pushed
  }

  /** Only a job whose claim is settled, and which is not yet finalised by its claimer, may be written. */
  ghost predicate WorkerOk(db: Database, me: Worker) {
    (me.claimed ==> me.jobId in db.jobs && db.jobs[me.jobId].status != QUEUED && db.jobs[me.jobId].startedAt.Some?)
    && (me.Working() || me.pc.Finalised? ==> me.claimed)
    && (me.Working() ==> ResultsOf(db.results, me.jobId) == [] && db.jobs[me.jobId].status in {RUNNING, FAILED})
    && (me.pc.Loaded? || me.pc.Computed? ==>
          me.pc.job.payload == db.jobs[me.jobId].payload && me.pc.job.status in {RUNNING, FAILED}
          && (me.pc.job.finishedAt.Some? ==> db.jobs[me.jobId].status.IsTerminal()))
    && (me.pc.Computed? ==> Complete(me.pc.rows, me.jobId, me.pc.job.payload.attacks))
    && (me.pc.HandlerLoaded? ==>
          me.jobId in db.jobs
          && (me.pc.job.status.IsTerminal() || me.pc.job.finishedAt.Some? ==> db.jobs[me.jobId].status.IsTerminal()))
  }

  ghost predicate WorkersOk(s: State) {
    forall w | w in s.workers :: WorkerOk(s.db, s.workers[w])
  }

  ghost predicate ClaimersDistinct(s: State) {
    forall v, w | v in s.workers && w in s.workers && v != w && s.workers[v].claimed && s.workers[w].claimed ::
      s.workers[v].jobId != s.workers[w].jobId
  }

  /** A cancel that succeeded settled the row before any worker started it. */
  ghost predicate CancellerOk(db: Database, me: Canceller) {
    me.jobId in db.jobs
    && (me.won ==> db.jobs[me.jobId].status != QUEUED && db.jobs[me.jobId].startedAt == None)
    && (me.pc.Removing? ==> me.won) && (me.pc.Found? ==> !me.won)
  }

  ghost predicate CancellersOk(s: State) {
    forall c | c in s.cancellers :: CancellerOk(s.db, s.cancellers[c])
  }

  /** Whatever is still running was not overdue at the last sweep. */
  ghost predicate SweptOk(s: State) {
    s.lastSweep <= s.now
    && forall id | id in s.db.jobs && s.db.jobs[id].status == RUNNING && s.db.jobs[id].startedAt.Some? ::
         s.lastSweep <= s.db.jobs[id].startedAt.value + s.settings.jobTimeoutSeconds + s.settings.staleJobGraceSeconds
  }

  ghost predicate TablesOk(s: State) {
    RowsOk(s) && FingerprintsOk(s) && KeysUnique(s.db) && ResultsOk(s) && SweptOk(s)
  }

  ghost predicate SubmissionsOk(s: State) {
    SubmittersOk(s) && OwnersDistinct(s) && PushedOnce(s)
  }

  ghost predicate ExecutionsOk(s: State) {
    WorkersOk(s) && ClaimersDistinct(s)
  }

  ghost predicate Inv(s: State) {
    TablesOk(s) && SubmissionsOk(s) && ExecutionsOk(s) && CancellersOk(s)
  }

  lemma InitiallyInv(s: State)
    requires Initial(s)
    ensures Inv(s)
  {
  }

  // ------------------------------------------------------------- rows under one step

  /** The ORM write of a failure leaves a coherent, terminal row. */
  lemma FlushFailedRow(row: Job, loaded: Job, message: ErrorMessage, now: int)
    requires RowOk(row, now)
    requires loaded.status.IsTerminal() || loaded.finishedAt.Some? ==> row.status.IsTerminal()
    ensures var r := Flush(row, loaded, FAILED, Some(message), now);
            RowOk(r, now) && Evolves(row, r) && r.status.IsTerminal()
            && (r.status == SUCCEEDED || r.status == CANCELLED ==> r.status == row.status)
  {
  }

  /** The ORM write of a success leaves a succeeded row. */
  lemma FlushSucceededRow(row: Job, loaded: Job, now: int)
    requires RowOk(row, now) && row.status in {RUNNING, FAILED} && row.startedAt.Some?
    requires loaded.status in {RUNNING, FAILED} && (loaded.finishedAt.Some? ==> row.status.IsTerminal())
    ensures var r := Flush(row, loaded, SUCCEEDED, None, now);
            RowOk(r, now) && Evolves(row, r) && r.status == SUCCEEDED
  {
  }

  lemma EvolvesIsTransitive(a: Database, b: Database, c: Database)
    requires DbEvolves(a, b) && DbEvolves(b, c)
    ensures DbEvolves(a, c)
  {
    forall id | id in a.jobs ensures id in c.jobs && Evolves(a.jobs[id], c.jobs[id]) {
      assert id in b.jobs && Evolves(b.jobs[id], c.jobs[id]);
    }
  }
}
