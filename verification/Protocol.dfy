/**
 * The job protocol as a step system: any number of submitters (`create_job`), cancellers
 * (`cancel_job`) and workers (`run_benchmark_job`), one queue that may deliver twice, and a
 * reaper, all over one shared database whose atomic steps are commits.
 *
 * `pushed`, `lastSweep`, `Worker.claimed` and `Canceller.won` only record history.
 */
module Protocol {
  import opened Prelude
  import opened Cursor
  import opened Fingerprint
  import opened Models

  // ------------------------------------------------------------------- actors

  datatype Refusal = Capacity | KeyReuse | Integrity

  datatype SubmitterPc =
    | Arrived
    | Counted
    | Collided
    | Inserted(id: JobId, job: Job)
    | Pushed(id: JobId, job: Job)
    | Raising(id: JobId, job: Job)
    | Returned(id: JobId, replayed: bool)
    | Refused(error: Refusal)
    | Died

  /** One call of create_job. */
  datatype Submitter = Submitter(payload: Payload, key: Option<string>, pc: SubmitterPc)

  datatype CancellerPc = Found | Removing | Done

  /** One call of cancel_job that found its job. */
  datatype Canceller = Canceller(jobId: JobId, pc: CancellerPc, won: bool)

  datatype WorkerPc =
    | Delivered
    | Skipped
    | Claimed
    | Loaded(job: Job)
    | Computed(job: Job, rows: seq<JobResult>)
    | Finalised
    | Handling
    | HandlerLoaded(job: Job)
    | Ended
    | Lost

  /** One execution of run_benchmark_job. */
  datatype Worker = Worker(jobId: JobId, pc: WorkerPc, claimed: bool) {
    /** Claimed the job and has not committed an outcome. */
    predicate Working() {
      pc.Claimed? || pc.Loaded? || pc.Computed?
    }

    /** In the except branch. */
    predicate Recovering() {
      pc.Handling? || pc.HandlerLoaded?
    }
  }

  datatype State = State(
    settings: Settings, db: Database, now: int, lastSweep: int,
    submitters: map<nat, Submitter>, cancellers: map<nat, Canceller>, workers: map<nat, Worker>,
    queue: multiset<JobId>, pushed: multiset<JobId>)

  ghost predicate Initial(s: State) {
    s.db == Database(map[], []) && s.lastSweep == s.now
    && s.submitters == map[] && s.cancellers == map[] && s.workers == map[]
    && s.queue == multiset{} && s.pushed == multiset{}
  }

  // -------------------------------------------------------------------- steps

  datatype SubmitterAction =
    | Count
    | Commit(newId: JobId, createdAt: Moment)
    | Lookup(found: Option<JobId>)
    | Push
    | EnqueueReturn
    | EnqueueRaise
    | MarkEnqueueFailed(message: string)
    | SubmitterDies

  datatype CancellerAction = ConditionalUpdate | RemoveEntry(removed: bool) | CancellerDies

  datatype WorkerAction =
    | Claim
    | Raise
    | Load
    | Compute(results: seq<JobResult>)
    | Finalise
    | Return
    | HandlerLoad
    | HandlerMarkFailed(message: string)
    | WorkerDies

  datatype Step =
    | Tick(elapsed: nat)
    | Sweep
    | Submit(x: nat, payload: Payload, key: Option<string>)
    | SubmitterDoes(x: nat, s: SubmitterAction)
    | Cancel(c: nat, id: JobId)
    | CancellerDoes(c: nat, k: CancellerAction)
    | Deliver(w: nat, id: JobId, consumed: bool)
    | WorkerDoes(w: nat, a: WorkerAction)

  // ---------------------------------------------------------------- submitters

  ghost predicate SubmitterCan(s: State, x: nat, a: SubmitterAction) {
    x in s.submitters &&
    var pc := s.submitters[x].pc;
    match a
    case Count => pc.Arrived?
    case Commit(_, _) => pc.Counted?
    case Lookup(found) =>
      pc.Collided? && s.submitters[x].key.Some?
      && match found {
           case Some(id) => id in s.db.jobs && s.db.jobs[id].idempotencyKey == s.submitters[x].key
           case None => !KeyTaken(s.db, s.submitters[x].key.value)
         }
    case Push => pc.Inserted?
    case EnqueueReturn => pc.Pushed?
    case EnqueueRaise => pc.Inserted? || pc.Pushed?
    case MarkEnqueueFailed(_) => pc.Raising? && pc.id in s.db.jobs
    case SubmitterDies => !pc.Returned? && !pc.Refused? && !pc.Died?
  }

  ghost function SubmitterMoves(s: State, x: nat, pc: SubmitterPc): State
    requires x in s.submitters
  {
    s.(submitters := s.submitters[x := s.submitters[x].(pc := pc)])
  }

  ghost function AfterSubmitter(s: State, x: nat, a: SubmitterAction): State
    requires SubmitterCan(s, x, a)
  {
    var me := s.submitters[x];
    match a
    case Count =>
      SubmitterMoves(s, x, if |ActiveIds(s.db)| >= s.settings.maxActiveJobs then Refused(Capacity) else Counted)
    case Commit(id, createdAt) =>
      var job := NewJob(s.settings, me.payload, me.key, createdAt);
      if Insertable(s.db, id, job) then SubmitterMoves(s, x, Inserted(id, job)).(db := InsertJob(s.db, id, job))
      else SubmitterMoves(s, x, if me.key.None? then Refused(Integrity) else Collided)
    case Lookup(found) =>
      SubmitterMoves(s, x,
        if found.None? then Refused(Integrity)
        else if s.db.jobs[found.value].fingerprint != s.settings.fingerprint(me.payload) then Refused(KeyReuse)
        else Returned(found.value, true))
    case Push =>
      SubmitterMoves(s, x, Pushed(me.pc.id, me.pc.job)).(
        queue := s.queue + multiset{me.pc.id}, pushed := s.pushed + multiset{me.pc.id})
    case EnqueueReturn => SubmitterMoves(s, x, Returned(me.pc.id, false))
    case EnqueueRaise => SubmitterMoves(s, x, Raising(me.pc.id, me.pc.job))
    case MarkEnqueueFailed(message) =>
      SubmitterMoves(s, x, Returned(me.pc.id, false)).(db := MarkFailed(s.db, me.pc.id, me.pc.job, message, s.now))
    case SubmitterDies => SubmitterMoves(s, x, Died)
  }

  // ---------------------------------------------------------------- cancellers

  ghost predicate CancellerCan(s: State, c: nat, a: CancellerAction) {
    c in s.cancellers &&
    match a
    case ConditionalUpdate => s.cancellers[c].pc.Found?
    case RemoveEntry(_) => s.cancellers[c].pc.Removing?
    case CancellerDies => !s.cancellers[c].pc.Done?
  }

  ghost function AfterCanceller(s: State, c: nat, a: CancellerAction): State
    requires CancellerCan(s, c, a)
  {
    var me := s.cancellers[c];
    match a
    case ConditionalUpdate =>
      var won := IsQueued(s.db, me.jobId);
      s.(db := CancelJob(s.db, me.jobId, s.now),
         cancellers := s.cancellers[c := me.(pc := if won then Removing else Done, won := won)])
    case RemoveEntry(removed) =>
      s.(queue := if removed then s.queue[me.jobId := 0] else s.queue, cancellers := s.cancellers[c := me.(pc := Done)])
    case CancellerDies => s.(cancellers := s.cancellers[c := me.(pc := Done)])
  }

  // ------------------------------------------------------------------- workers

  ghost predicate WorkerCan(s: State, w: nat, a: WorkerAction) {
    w in s.workers &&
    var me := s.workers[w];
    match a
    case Claim => me.pc.Delivered?
    case Raise => me.pc.Delivered? || me.pc.Skipped? || me.Working() || me.pc.Finalised?
    case Load => me.pc.Claimed? && me.jobId in s.db.jobs
    case Compute(rows) => me.pc.Loaded? && Complete(rows, me.jobId, me.pc.job.payload.attacks)
    case Finalise => me.pc.Computed? && me.jobId in s.db.jobs
    case Return => me.pc.Skipped? || me.pc.Finalised?
    case HandlerLoad => me.pc.Handling?
    case HandlerMarkFailed(_) => me.pc.HandlerLoaded? && me.jobId in s.db.jobs
    case WorkerDies => !me.pc.Ended? && !me.pc.Lost?
  }

  ghost function WorkerMoves(s: State, w: nat, pc: WorkerPc): State
    requires w in s.workers
  {
    s.(workers := s.workers[w := s.workers[w].(pc := pc)])
  }

  ghost function AfterWorker(s: State, w: nat, a: WorkerAction): State
    requires WorkerCan(s, w, a)
  {
    var me := s.workers[w];
    match a
    case Claim =>
      if IsQueued(s.db, me.jobId) then
        s.(db := ClaimJob(s.db, me.jobId, s.now), workers := s.workers[w := me.(pc := Claimed, claimed := true)])
      else WorkerMoves(s, w, Skipped)
    case Raise => WorkerMoves(s, w, Handling)
    case Load => WorkerMoves(s, w, Loaded(s.db.jobs[me.jobId]))
    case Compute(rows) => WorkerMoves(s, w, Computed(me.pc.job, rows))
    case Finalise =>
      if ResultsInsertable(s.db.results, me.pc.rows) then
        WorkerMoves(s, w, Finalised).(db := MarkSucceeded(s.db, me.jobId, me.pc.job, me.pc.rows, s.now))
      else WorkerMoves(s, w, Handling)
    case Return => WorkerMoves(s, w, Ended)
    case HandlerLoad => WorkerMoves(s, w, if me.jobId in s.db.jobs then HandlerLoaded(s.db.jobs[me.jobId]) else Ended)
    case HandlerMarkFailed(message) =>
      WorkerMoves(s, w, Ended).(db := MarkFailed(s.db, me.jobId, me.pc.job, message, s.now))
    case WorkerDies => WorkerMoves(s, w, Lost)
  }

  // ----------------------------------------------------------------- the system

  function Cutoff(s: State): int {
    s.now - (s.settings.jobTimeoutSeconds + s.settings.staleJobGraceSeconds)
  }

  ghost predicate Enabled(s: State, step: Step) {
    match step
    case Tick(_) => true
    case Sweep => true
    case Submit(x, payload, _) => x !in s.submitters && ValidRequest(payload)
    case SubmitterDoes(x, a) => SubmitterCan(s, x, a)
    case Cancel(c, id) => c !in s.cancellers && id in s.db.jobs
    case CancellerDoes(c, a) => CancellerCan(s, c, a)
    case Deliver(w, id, consumed) => w !in s.workers && if consumed then id in s.queue else id in s.pushed
    case WorkerDoes(w, a) => WorkerCan(s, w, a)
  }

  ghost function After(s: State, step: Step): State
    requires Enabled(s, step)
  {
    match step
    case Tick(elapsed) => s.(now := s.now + elapsed)
    case Sweep => s.(db := SweepJobs(s.db, Cutoff(s), s.now), lastSweep := s.now)
    case Submit(x, payload, key) => s.(submitters := s.submitters[x := Submitter(payload, key, Arrived)])
    case SubmitterDoes(x, a) => AfterSubmitter(s, x, a)
    case Cancel(c, id) => s.(cancellers := s.cancellers[c := Canceller(id, Found, false)])
    case CancellerDoes(c, a) => AfterCanceller(s, c, a)
    case Deliver(w, id, consumed) =>
      s.(queue := if consumed then s.queue - multiset{id} else s.queue,
         workers := s.workers[w := Worker(id, Delivered, false)])
    case WorkerDoes(w, a) => AfterWorker(s, w, a)
  }

  /** An interleaving: a starting state and one step after another, each enabled when taken. */
  datatype Run = Run(states: seq<State>, steps: seq<Step>) {
    ghost predicate Valid() {
      |states| == |steps| + 1 && Initial(states[0])
      && forall i | 0 <= i < |steps| :: Enabled(states[i], steps[i]) && states[i + 1] == After(states[i], steps[i])
    }

    function Length(): nat {
      |steps|
    }
  }
}
