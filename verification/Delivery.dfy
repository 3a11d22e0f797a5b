/** Custody: a queued job is never lost between the API, the queue and a worker, unless a process is. */
module Delivery {
  import opened Prelude
  import opened Models
  import opened Protocol
  import opened Invariants
  import opened Preservation

  /** The call has yet to finish enqueuing job `id`, or has yet to record that it could not. */
  ghost predicate Holds(me: Submitter, id: JobId) {
    (me.pc.Inserted? || me.pc.Pushed? || me.pc.Raising?) && me.pc.id == id
  }

  ghost predicate WithSubmitter(s: State, id: JobId) {
    exists x :: x in s.submitters && Holds(s.submitters[x], id)
  }

  /** The worker is about to claim job `id`, or about to record that it could not. */
  ghost predicate InHand(me: Worker, id: JobId) {
    me.jobId == id && (me.pc.Delivered? || me.Recovering())
  }

  ghost predicate WithWorker(s: State, id: JobId) {
    exists w :: w in s.workers && InHand(s.workers[w], id)
  }

  ghost predicate InCustody(s: State, id: JobId) {
    id in s.queue || WithSubmitter(s, id) || WithWorker(s, id)
  }

  /** A queued job that nobody will act on. */
  ghost predicate Stranded(s: State, id: JobId) {
    IsQueued(s.db, id) && !InCustody(s, id)
  }

  ghost predicate NothingStranded(s: State) {
    forall id :: !Stranded(s, id)
  }

  /**
   * The step is the end of the only holder of the queued job `id`, which is not in the queue
   * either: an API process that dies before its enqueue has returned or before it has recorded
   * that the enqueue failed; an enqueue that returns when its entry is already spent; or a
   * worker that dies before its claim or before it has recorded that it could not claim -
   * which includes failing to import the engine.
   */
  ghost predicate LosesLastHolder(s: State, step: Step, id: JobId) {
    IsQueued(s.db, id) && id !in s.queue &&
    match step
    case SubmitterDoes(x, SubmitterDies) => x in s.submitters && Holds(s.submitters[x], id) && !WithWorker(s, id)
    case SubmitterDoes(x, EnqueueReturn) =>
      x in s.submitters && s.submitters[x].pc.Pushed? && Holds(s.submitters[x], id) && !WithWorker(s, id)
    case WorkerDoes(w, WorkerDies) =>
      w in s.workers && InHand(s.workers[w], id) && !WithSubmitter(s, id)
      && forall v | v in s.workers && v != w :: !InHand(s.workers[v], id)
    case _ => false
  }

  // ------------------------------------------------------------------- submitters

  lemma NewlyQueued(s: State, t: State, x: nat, a: SubmitterAction, id: JobId)
    requires SubmitterCan(s, x, a) && t == AfterSubmitter(s, x, a) && !IsQueued(s.db, id) && IsQueued(t.db, id)
    requires SubmittersOk(s)
    ensures WithSubmitter(t, id)
  {
    assert SubmitterOk(s, s.submitters[x]);
    assert Holds(t.submitters[x], id);
  }

  /** A call that holds a row keeps it or finishes it, until its enqueue returns or it dies. */
  lemma SubmitterHandsOver(s: State, t: State, x: nat, a: SubmitterAction)
    requires SubmitterCan(s, x, a) && t == AfterSubmitter(s, x, a) && !a.SubmitterDies? && !a.EnqueueReturn?
    requires SubmittersOk(s) && Owned(s.submitters[x]).Some? && Holds(s.submitters[x], Owned(s.submitters[x]).value)
    ensures var id := s.submitters[x].pc.id; !IsQueued(t.db, id) || Holds(t.submitters[x], id)
  {
    assert SubmitterOk(s, s.submitters[x]);
  }

  lemma SubmitterKeepsCustody(s: State, t: State, x: nat, a: SubmitterAction, id: JobId)
    requires SubmitterCan(s, x, a) && t == AfterSubmitter(s, x, a) && !LosesLastHolder(s, SubmitterDoes(x, a), id)
    requires SubmittersOk(s) && IsQueued(t.db, id) && (IsQueued(s.db, id) ==> InCustody(s, id))
    ensures InCustody(t, id)
  {
    SubmitterFrame(s, t, x, a);
    if !IsQueued(s.db, id) {
      NewlyQueued(s, t, x, a, id);
    } else if WithWorker(s, id) {
      assert WithWorker(t, id);
    } else if id !in s.queue {
      var y :| y in s.submitters && Holds(s.submitters[y], id);
      if y == x {
        SubmitterHandsOver(s, t, x, a);
      } else {
        assert t.submitters[y] == s.submitters[y];
      }
    }
  }

  // ---------------------------------------------------------------------- workers

  lemma WorkerHandsOver(s: State, t: State, w: nat, a: WorkerAction)
    requires WorkerCan(s, w, a) && t == AfterWorker(s, w, a) && WorkersOk(s) && !a.WorkerDies?
    requires InHand(s.workers[w], s.workers[w].jobId)
    requires IsQueued(s.db, s.workers[w].jobId) && IsQueued(t.db, s.workers[w].jobId)
    ensures InHand(t.workers[w], s.workers[w].jobId)
  {
    assert WorkerOk(s.db, s.workers[w]);
  }

  lemma WorkerKeepsCustody(s: State, t: State, w: nat, a: WorkerAction, id: JobId)
    requires WorkerCan(s, w, a) && t == AfterWorker(s, w, a) && !LosesLastHolder(s, WorkerDoes(w, a), id)
    requires WorkersOk(s) && IsQueued(t.db, id) && IsQueued(s.db, id) && InCustody(s, id)
    ensures InCustody(t, id)
  {
    WorkerFrame(s, t, w, a);
    if id !in s.queue && !WithSubmitter(s, id) {
      var v :| v in s.workers && InHand(s.workers[v], id) && (v != w || !a.WorkerDies?);
      if v == w {
        WorkerHandsOver(s, t, w, a);
      } else {
        assert t.workers[v] == s.workers[v];
      }
    } else if WithSubmitter(s, id) {
      assert WithSubmitter(t, id);
    }
  }

  // ------------------------------------------------------- deliveries, cancels, sweeps

  lemma DeliveryKeepsCustody(s: State, t: State, w: nat, id: JobId, consumed: bool, other: JobId)
    requires Enabled(s, Deliver(w, id, consumed)) && t == After(s, Deliver(w, id, consumed)) && InCustody(s, other)
    ensures InCustody(t, other)
  {
    if other == id {
      assert InHand(t.workers[w], id);
    } else if WithSubmitter(s, other) {
      assert t.submitters == s.submitters;
    } else if WithWorker(s, other) {
      var v :| v in s.workers && InHand(s.workers[v], other);
      assert t.workers[v] == s.workers[v];
    }
  }

  /** A cancel removes the entry of its own job only, which is no longer queued. */
  lemma CancellerKeepsCustody(s: State, t: State, c: nat, a: CancellerAction, id: JobId)
    requires CancellersOk(s) && CancellerCan(s, c, a) && t == AfterCanceller(s, c, a)
    requires IsQueued(t.db, id) && InCustody(s, id)
    ensures InCustody(t, id)
  {
    assert CancellerOk(s.db, s.cancellers[c]);
    assert t.submitters == s.submitters && t.workers == s.workers;
    assert WithSubmitter(s, id) ==> WithSubmitter(t, id);
    assert WithWorker(s, id) ==> WithWorker(t, id);
  }

  /** Clock, sweeps and arrivals leave the queued rows and their custody as they are. */
  lemma OthersKeepCustody(s: State, t: State, step: Step, id: JobId)
    requires Enabled(s, step) && t == After(s, step) && (step.Tick? || step.Sweep? || step.Submit? || step.Cancel?)
    requires IsQueued(t.db, id) && (IsQueued(s.db, id) ==> InCustody(s, id))
    ensures InCustody(t, id)
  {
    assert IsQueued(s.db, id);
    assert t.workers == s.workers && t.queue == s.queue;
    assert WithWorker(s, id) ==> WithWorker(t, id);
    if WithSubmitter(s, id) {
      var x :| x in s.submitters && Holds(s.submitters[x], id);
      assert x in t.submitters && t.submitters[x] == s.submitters[x];
    }
  }

  lemma WorkersQueueNothing(s: State, t: State, w: nat, a: WorkerAction, id: JobId)
    requires WorkerCan(s, w, a) && t == AfterWorker(s, w, a) && !IsQueued(s.db, id)
    ensures !IsQueued(t.db, id)
  {
  }

  /** Only an insert makes a row queued. */
  lemma OthersQueueNothing(s: State, t: State, step: Step, id: JobId)
    requires Enabled(s, step) && t == After(s, step) && !step.SubmitterDoes? && !IsQueued(s.db, id)
    ensures !IsQueued(t.db, id)
  {
    match step
    case WorkerDoes(w, a) => WorkersQueueNothing(s, t, w, a, id);
    case _ =>
  }

  lemma StepKeepsCustody(s: State, t: State, step: Step, id: JobId)
    requires SubmittersOk(s) && WorkersOk(s) && CancellersOk(s) && (IsQueued(s.db, id) ==> InCustody(s, id))
    requires Enabled(s, step) && t == After(s, step) && !LosesLastHolder(s, step, id) && IsQueued(t.db, id)
    ensures InCustody(t, id)
  {
    if !IsQueued(s.db, id) && !step.SubmitterDoes? {
      OthersQueueNothing(s, t, step, id);
    }
    match step
    case SubmitterDoes(x, a) => SubmitterKeepsCustody(s, t, x, a, id);
    case WorkerDoes(w, a) => WorkerKeepsCustody(s, t, w, a, id);
    case CancellerDoes(c, a) => CancellerKeepsCustody(s, t, c, a, id);
    case Deliver(w, other, consumed) => DeliveryKeepsCustody(s, t, w, other, consumed, id);
    case _ => OthersKeepCustody(s, t, step, id);
  }

  // ------------------------------------------------------------------ exactly the losses

  lemma LastCallStrands(s: State, x: nat, a: SubmitterAction, id: JobId)
    requires OwnersDistinct(s) && LosesLastHolder(s, SubmitterDoes(x, a), id)
    ensures SubmitterCan(s, x, a) && Stranded(AfterSubmitter(s, x, a), id)
  {
    var t := AfterSubmitter(s, x, a);
    assert t.workers == s.workers && t.queue == s.queue && t.db == s.db;
    assert Owned(s.submitters[x]) == Some(id);
    forall y | y in t.submitters && y != x ensures !Holds(t.submitters[y], id) {
      assert Owned(s.submitters[x]) != Owned(s.submitters[y]);
    }
  }

  lemma LastWorkerStrands(s: State, w: nat, id: JobId)
    requires w in s.workers && LosesLastHolder(s, WorkerDoes(w, WorkerDies), id)
    ensures WorkerCan(s, w, WorkerDies) && Stranded(AfterWorker(s, w, WorkerDies), id)
  {
    var t := AfterWorker(s, w, WorkerDies);
    assert t.submitters == s.submitters && t.queue == s.queue;
    assert !WithSubmitter(t, id);
  }

  /** A step strands a job if and only if it is the end of the job's last holder. */
  lemma StepStrandsExactly(s: State, t: State, step: Step, id: JobId)
    requires Inv(s) && Enabled(s, step) && t == After(s, step) && !Stranded(s, id)
    ensures Stranded(t, id) <==> LosesLastHolder(s, step, id)
  {
    if LosesLastHolder(s, step, id) {
      if step.SubmitterDoes? {
        LastCallStrands(s, step.x, step.s, id);
      } else {
        LastWorkerStrands(s, step.w, id);
      }
    } else if IsQueued(t.db, id) {
      StepKeepsCustody(s, t, step, id);
    }
  }

  // ------------------------------------------------------------------------- over runs

  /** The step is the end of some job's last holder. */
  ghost predicate Loses(s: State, step: Step) {
    exists id :: LosesLastHolder(s, step, id)
  }

  lemma StepStrandsSomethingExactly(s: State, t: State, step: Step)
    requires Inv(s) && Enabled(s, step) && t == After(s, step) && NothingStranded(s)
    ensures NothingStranded(t) <==> !Loses(s, step)
  {
    forall id ensures Stranded(t, id) <==> LosesLastHolder(s, step, id) {
      StepStrandsExactly(s, t, step, id);
    }
  }

  lemma NextIsStrandedExactly(r: Run, i: nat)
    requires r.Valid() && i < r.Length() && NothingStranded(r.states[i])
    ensures NothingStranded(r.states[i + 1]) <==> !Loses(r.states[i], r.steps[i])
  {
    RunStep(r, i);
    StepStrandsSomethingExactly(r.states[i], r.states[i + 1], r.steps[i]);
  }

  /** What is good at `i` and turns bad exactly at a loss is good up to `j` exactly when no loss came before. */
  lemma {:induction false} GoodUntilALoss(good: seq<bool>, loss: seq<bool>, i: nat, j: nat)
    requires |good| == |loss| + 1 && i <= j < |good| && good[i]
    requires forall k | 0 <= k < |loss| && good[k] :: good[k + 1] == !loss[k]
    ensures (forall k | i <= k <= j :: good[k]) <==> (forall k | i <= k < j :: !loss[k])
    decreases j
  {
    if i < j {
      GoodUntilALoss(good, loss, i, j - 1);
      var before, quiet := forall k | i <= k <= j - 1 :: good[k], forall k | i <= k < j - 1 :: !loss[k];
      assert before ==> good[j - 1 + 1] == !loss[j - 1];
      assert (forall k | i <= k <= j :: good[k]) <==> before && good[j];
      assert (forall k | i <= k < j :: !loss[k]) <==> quiet && !loss[j - 1];
    }
  }

  /**
   * In a run every queued job is in somebody's custody at every moment up to `i` if and only
   * if no step before `i` is the end of a queued job's last holder - through enqueues that
   * raise, cancels that remove entries and repeated deliveries.
   */
  lemma NoJobIsStrandedExactly(r: Run, i: nat)
    requires r.Valid() && i < |r.states|
    ensures (forall k | 0 <= k <= i :: NothingStranded(r.states[k]))
            <==> (forall k | 0 <= k < i :: !Loses(r.states[k], r.steps[k]))
  {
    var good := seq(|r.states|, k requires 0 <= k < |r.states| => NothingStranded(r.states[k]));
    var loss := seq(|r.steps|, k requires 0 <= k < |r.steps| => Loses(r.states[k], r.steps[k]));
    forall k | 0 <= k < |loss| && good[k] ensures good[k + 1] == !loss[k] {
      NextIsStrandedExactly(r, k);
    }
    GoodUntilALoss(good, loss, 0, i);
    assert forall k | 0 <= k <= i :: good[k] == NothingStranded(r.states[k]);
    assert forall k | 0 <= k < i :: loss[k] == Loses(r.states[k], r.steps[k]);
  }

  // ----------------------------------------------------------- what has been handed over

  /** Whatever is in the queue, with a worker, or past its push has been handed to the queue. */
  ghost predicate HandedOk(s: State) {
    (forall id | id in s.queue :: id in s.pushed)
    && (forall w | w in s.workers :: s.workers[w].jobId in s.pushed)
    && forall x | x in s.submitters && s.submitters[x].pc.Pushed? :: s.submitters[x].pc.id in s.pushed
  }

  lemma SubmitterHands(s: State, t: State, x: nat, a: SubmitterAction)
    requires HandedOk(s) && SubmitterCan(s, x, a) && t == AfterSubmitter(s, x, a)
    ensures s.pushed <= t.pushed && (forall id | id in t.queue :: id in t.pushed)
    ensures t.submitters[x].pc.Pushed? ==> t.submitters[x].pc.id in t.pushed
  {
    SubmitterFrame(s, t, x, a);
    assert a.Push? || (t.queue == s.queue && t.pushed == s.pushed);
  }

  lemma SubmitterKeepsHanded(s: State, t: State, x: nat, a: SubmitterAction)
    requires HandedOk(s) && SubmitterCan(s, x, a) && t == AfterSubmitter(s, x, a)
    ensures HandedOk(t)
  {
    SubmitterFrame(s, t, x, a);
    SubmitterHands(s, t, x, a);
    forall y | y in t.submitters && t.submitters[y].pc.Pushed? ensures t.submitters[y].pc.id in t.pushed {
      assert y != x ==> t.submitters[y] == s.submitters[y];
    }
  }

  lemma DeliveryHands(s: State, t: State, w: nat, id: JobId, consumed: bool)
    requires HandedOk(s) && Enabled(s, Deliver(w, id, consumed)) && t == After(s, Deliver(w, id, consumed))
    ensures HandedOk(t)
  {
    assert id in s.pushed && t.pushed == s.pushed && t.submitters == s.submitters;
    forall v | v in t.workers ensures t.workers[v].jobId in t.pushed {
      assert v != w ==> t.workers[v] == s.workers[v];
    }
  }

  lemma OthersKeepHanded(s: State, t: State, step: Step)
    requires HandedOk(s) && Enabled(s, step) && t == After(s, step) && !step.SubmitterDoes?
    ensures HandedOk(t)
  {
    match step
    case WorkerDoes(w, a) => WorkerFrame(s, t, w, a);
    case CancellerDoes(c, a) => CancellerFrame(s, t, c, a);
    case Deliver(w, id, consumed) => DeliveryHands(s, t, w, id, consumed);
    case Submit(x, _, _) =>
      assert t.queue == s.queue && t.workers == s.workers && t.pushed == s.pushed;
      assert forall y | y in t.submitters && t.submitters[y].pc.Pushed? :: t.submitters[y] == s.submitters[y];
    case _ =>
  }

  lemma NextHanded(r: Run, i: nat)
    requires r.Valid() && i < r.Length() && HandedOk(r.states[i])
    ensures HandedOk(r.states[i + 1])
  {
    assert Enabled(r.states[i], r.steps[i]) && r.states[i + 1] == After(r.states[i], r.steps[i]);
    if r.steps[i].SubmitterDoes? {
      SubmitterKeepsHanded(r.states[i], r.states[i + 1], r.steps[i].x, r.steps[i].s);
    } else {
      OthersKeepHanded(r.states[i], r.states[i + 1], r.steps[i]);
    }
  }

  lemma {:induction false} ReachableHanded(r: Run, i: nat)
    requires r.Valid() && i < |r.states|
    ensures HandedOk(r.states[i])
  {
    if i > 0 {
      ReachableHanded(r, i - 1);
      NextHanded(r, i - 1);
    }
  }

  // ------------------------------------------------------------ what can still be done

  /** A worker that skipped its job found it claimed, cancelled or ended. */
  ghost predicate SkippedOk(s: State) {
    forall w | w in s.workers && s.workers[w].pc.Skipped? ::
      s.workers[w].jobId in s.db.jobs && s.db.jobs[s.workers[w].jobId].status != QUEUED
  }

  lemma SkipsOnlyWhatIsNotQueued(s: State, t: State, w: nat, a: WorkerAction)
    requires WorkerCan(s, w, a) && t == AfterWorker(s, w, a) && s.workers[w].jobId in s.db.jobs
    ensures w in t.workers && (t.workers[w].pc.Skipped? ==>
              t.workers[w].jobId in t.db.jobs && t.db.jobs[t.workers[w].jobId].status != QUEUED)
  {
  }

  lemma WorkerKeepsSkipped(s: State, t: State, w: nat, a: WorkerAction)
    requires SkippedOk(s) && WorkerCan(s, w, a) && t == AfterWorker(s, w, a) && s.workers[w].jobId in s.db.jobs
    requires DbEvolves(s.db, t.db)
    ensures SkippedOk(t)
  {
    WorkerFrame(s, t, w, a);
    SkipsOnlyWhatIsNotQueued(s, t, w, a);
    forall v | v in t.workers && t.workers[v].pc.Skipped? && v != w
      ensures t.workers[v].jobId in t.db.jobs && t.db.jobs[t.workers[v].jobId].status != QUEUED
    {
      assert t.workers[v] == s.workers[v];
      assert Evolves(s.db.jobs[s.workers[v].jobId], t.db.jobs[s.workers[v].jobId]);
    }
  }

  /** Whoever else moves, workers stay as they are, except that a delivery adds one. */
  lemma OthersLeaveWorkers(s: State, t: State, step: Step)
    requires Enabled(s, step) && t == After(s, step) && !step.WorkerDoes?
    ensures forall w | w in t.workers ::
      if w in s.workers then t.workers[w] == s.workers[w]
      else step.Deliver? && step.w == w && t.workers[w] == Worker(step.id, Delivered, false)
  {
    match step
    case SubmitterDoes(x, a) => SubmitterFrame(s, t, x, a);
    case CancellerDoes(c, a) => CancellerFrame(s, t, c, a);
    case _ =>
  }

  lemma OthersKeepSkipped(s: State, t: State, step: Step)
    requires SkippedOk(s) && Enabled(s, step) && t == After(s, step) && !step.WorkerDoes? && DbEvolves(s.db, t.db)
    ensures SkippedOk(t)
  {
    OthersLeaveWorkers(s, t, step);
    forall v | v in t.workers && t.workers[v].pc.Skipped?
      ensures t.workers[v].jobId in t.db.jobs && t.db.jobs[t.workers[v].jobId].status != QUEUED
    {
      assert v in s.workers && t.workers[v] == s.workers[v];
      assert Evolves(s.db.jobs[s.workers[v].jobId], t.db.jobs[s.workers[v].jobId]);
    }
  }

  lemma NextSkipped(r: Run, i: nat)
    requires r.Valid() && i < r.Length() && SkippedOk(r.states[i])
    ensures SkippedOk(r.states[i + 1])
  {
    RunStep(r, i);
    NextEvolves(r, i);
    var step := r.steps[i];
    if step.WorkerDoes? {
      ReachableHanded(r, i);
      assert r.states[i].workers[step.w].jobId in r.states[i].pushed;
      WorkerKeepsSkipped(r.states[i], r.states[i + 1], step.w, step.a);
    } else {
      OthersKeepSkipped(r.states[i], r.states[i + 1], step);
    }
  }

  lemma {:induction false} ReachableSkipped(r: Run, i: nat)
    requires r.Valid() && i < |r.states|
    ensures SkippedOk(r.states[i])
  {
    if i > 0 {
      ReachableSkipped(r, i - 1);
      NextSkipped(r, i - 1);
    }
  }

  /** The step cancels job `id`. */
  ghost predicate Cancels(s: State, step: Step, id: JobId) {
    IsQueued(s.db, id) && step.CancellerDoes? && step.k.ConditionalUpdate?
    && step.c in s.cancellers && s.cancellers[step.c].jobId == id
  }

  /** The step cancels job `id` or delivers it once more. */
  ghost predicate Rescues(s: State, step: Step, id: JobId) {
    Cancels(s, step, id) || (step.Deliver? && step.id == id)
  }

  /** A call that does not hold a stored row never comes to hold, enqueue or write it. */
  lemma CallStaysAway(s: State, t: State, x: nat, a: SubmitterAction, id: JobId)
    requires SubmittersOk(s) && SubmitterCan(s, x, a) && t == AfterSubmitter(s, x, a)
    requires id in s.db.jobs && !Holds(s.submitters[x], id)
    ensures !Holds(t.submitters[x], id) && (id in t.queue <==> id in s.queue) && (id in t.pushed <==> id in s.pushed)
    ensures id in t.db.jobs && t.db.jobs[id] == s.db.jobs[id]
  {
  }

  lemma SubmitterRescuesNothing(s: State, t: State, x: nat, a: SubmitterAction, id: JobId)
    requires SubmittersOk(s) && SubmitterCan(s, x, a) && t == AfterSubmitter(s, x, a) && Stranded(s, id)
    ensures Stranded(t, id)
  {
    SubmitterFrame(s, t, x, a);
    assert !Holds(s.submitters[x], id);
    CallStaysAway(s, t, x, a, id);
    forall y | y in t.submitters ensures !Holds(t.submitters[y], id) {
      assert y != x ==> t.submitters[y] == s.submitters[y] && !Holds(s.submitters[y], id);
    }
    forall w | w in t.workers ensures !InHand(t.workers[w], id) {
      assert !InHand(s.workers[w], id);
    }
  }

  /** A worker that does not have a queued job in hand is done with it, or works on another. */
  lemma WorkerStaysAway(s: State, t: State, w: nat, a: WorkerAction, id: JobId)
    requires WorkersOk(s) && SkippedOk(s) && WorkerCan(s, w, a) && t == AfterWorker(s, w, a)
    requires IsQueued(s.db, id) && !InHand(s.workers[w], id)
    ensures w in t.workers && !InHand(t.workers[w], id) && IsQueued(t.db, id)
  {
    assert WorkerOk(s.db, s.workers[w]);
  }

  lemma WorkerRescuesNothing(s: State, t: State, w: nat, a: WorkerAction, id: JobId)
    requires WorkersOk(s) && SkippedOk(s) && WorkerCan(s, w, a) && t == AfterWorker(s, w, a) && Stranded(s, id)
    ensures Stranded(t, id)
  {
    WorkerFrame(s, t, w, a);
    assert !InHand(s.workers[w], id);
    WorkerStaysAway(s, t, w, a, id);
    forall v | v in t.workers ensures !InHand(t.workers[v], id) {
      assert v != w ==> t.workers[v] == s.workers[v] && !InHand(s.workers[v], id);
    }
    forall y | y in t.submitters ensures !Holds(t.submitters[y], id) {
      assert !Holds(s.submitters[y], id);
    }
  }

  lemma CancellerRescues(s: State, t: State, c: nat, a: CancellerAction, id: JobId)
    requires CancellerCan(s, c, a) && t == AfterCanceller(s, c, a) && Stranded(s, id)
    ensures Stranded(t, id) <==> !Cancels(s, CancellerDoes(c, a), id)
  {
    CancellerFrame(s, t, c, a);
    assert WithSubmitter(t, id) ==> WithSubmitter(s, id);
    assert WithWorker(t, id) ==> WithWorker(s, id);
  }

  lemma DeliveryRescues(s: State, t: State, w: nat, other: JobId, consumed: bool, id: JobId)
    requires Enabled(s, Deliver(w, other, consumed)) && t == After(s, Deliver(w, other, consumed)) && Stranded(s, id)
    ensures Stranded(t, id) <==> other != id
  {
    assert t.submitters == s.submitters && t.db == s.db && id !in t.queue;
    assert WithSubmitter(t, id) ==> WithSubmitter(s, id);
    assert InHand(t.workers[w], other);
    forall v | v in t.workers && v != w ensures !InHand(t.workers[v], id) {
      assert t.workers[v] == s.workers[v] && !InHand(s.workers[v], id);
    }
  }

  lemma OthersRescueNothing(s: State, t: State, step: Step, id: JobId)
    requires Enabled(s, step) && t == After(s, step) && Stranded(s, id)
    requires step.Tick? || step.Sweep? || step.Submit? || step.Cancel?
    ensures Stranded(t, id)
  {
    assert t.workers == s.workers && t.queue == s.queue;
    assert WithWorker(t, id) ==> WithWorker(s, id);
    forall y | y in t.submitters ensures !Holds(t.submitters[y], id) {
      assert (step.Submit? && y == step.x) || t.submitters[y] == s.submitters[y];
    }
  }

  /** A stranded job stays stranded until it is cancelled or delivered once more. */
  lemma StepRescuesExactly(s: State, t: State, step: Step, id: JobId)
    requires SubmittersOk(s) && WorkersOk(s) && SkippedOk(s) && Stranded(s, id)
    requires Enabled(s, step) && t == After(s, step)
    ensures Stranded(t, id) <==> !Rescues(s, step, id)
  {
    match step
    case SubmitterDoes(x, a) => SubmitterRescuesNothing(s, t, x, a, id);
    case WorkerDoes(w, a) => WorkerRescuesNothing(s, t, w, a, id);
    case CancellerDoes(c, a) => CancellerRescues(s, t, c, a, id);
    case Deliver(w, other, consumed) => DeliveryRescues(s, t, w, other, consumed, id);
    case _ => OthersRescueNothing(s, t, step, id);
  }

  lemma NextRescuesExactly(r: Run, i: nat, id: JobId)
    requires r.Valid() && i < r.Length() && Stranded(r.states[i], id)
    ensures Stranded(r.states[i + 1], id) <==> !Rescues(r.states[i], r.steps[i], id)
  {
    RunStep(r, i);
    ReachableSkipped(r, i);
    StepRescuesExactly(r.states[i], r.states[i + 1], r.steps[i], id);
  }

  /**
   * From a moment at which a job is stranded it stays `queued` and with nobody, at every moment
   * up to `j`, if and only if it is neither cancelled nor delivered once more in between.
   */
  lemma StrandedStaysExactly(r: Run, i: nat, j: nat, id: JobId)
    requires r.Valid() && i <= j < |r.states| && Stranded(r.states[i], id)
    ensures (forall k | i <= k <= j :: Stranded(r.states[k], id))
            <==> (forall k | i <= k < j :: !Rescues(r.states[k], r.steps[k], id))
  {
    var good := seq(|r.states|, k requires 0 <= k < |r.states| => Stranded(r.states[k], id));
    var loss := seq(|r.steps|, k requires 0 <= k < |r.steps| => Rescues(r.states[k], r.steps[k], id));
    forall k | 0 <= k < |loss| && good[k] ensures good[k + 1] == !loss[k] {
      NextRescuesExactly(r, k, id);
    }
    GoodUntilALoss(good, loss, i, j);
    assert forall k | i <= k <= j :: good[k] == Stranded(r.states[k], id);
    assert forall k | i <= k < j :: loss[k] == Rescues(r.states[k], r.steps[k], id);
  }

  // ----------------------------------------------------------- a row that was never enqueued

  /** A row nobody handed to the queue and no call will hand over any more. */
  ghost predicate Orphaned(s: State, id: JobId) {
    id in s.db.jobs && s.db.jobs[id].status in {QUEUED, CANCELLED} && id !in s.pushed && !WithSubmitter(s, id)
  }

  /** An orphan stays one; only a cancel changes its status. */
  ghost predicate KeepsOrphan(s: State, t: State, step: Step, id: JobId) {
    Orphaned(s, id) ==>
      Orphaned(t, id)
      && t.db.jobs[id].status == if Cancels(s, step, id) then CANCELLED else s.db.jobs[id].status
  }

  lemma SubmittersKeepOrphans(s: State, t: State, x: nat, a: SubmitterAction, id: JobId)
    requires SubmittersOk(s) && HandedOk(s) && SubmitterCan(s, x, a) && t == AfterSubmitter(s, x, a) && Orphaned(s, id)
    ensures Orphaned(t, id) && t.db.jobs[id].status == s.db.jobs[id].status
  {
    SubmitterFrame(s, t, x, a);
    assert !Holds(s.submitters[x], id);
    CallStaysAway(s, t, x, a, id);
    forall y | y in t.submitters ensures !Holds(t.submitters[y], id) {
      assert y != x ==> t.submitters[y] == s.submitters[y] && !Holds(s.submitters[y], id);
    }
  }

  lemma WorkersKeepOrphans(s: State, t: State, w: nat, a: WorkerAction, id: JobId)
    requires HandedOk(s) && WorkerCan(s, w, a) && t == AfterWorker(s, w, a) && Orphaned(s, id)
    ensures Orphaned(t, id) && t.db.jobs[id].status == s.db.jobs[id].status
  {
    WorkerFrame(s, t, w, a);
    assert s.workers[w].jobId != id;
  }

  lemma CancellersKeepOrphans(s: State, t: State, c: nat, a: CancellerAction, id: JobId)
    requires CancellerCan(s, c, a) && t == AfterCanceller(s, c, a) && Orphaned(s, id)
    ensures Orphaned(t, id)
    ensures t.db.jobs[id].status == if Cancels(s, CancellerDoes(c, a), id) then CANCELLED else s.db.jobs[id].status
  {
    CancellerFrame(s, t, c, a);
    assert WithSubmitter(t, id) ==> WithSubmitter(s, id);
  }

  lemma OthersKeepOrphans(s: State, t: State, step: Step, id: JobId)
    requires Enabled(s, step) && t == After(s, step) && Orphaned(s, id)
    requires !step.SubmitterDoes? && !step.WorkerDoes? && !step.CancellerDoes?
    ensures Orphaned(t, id) && t.db.jobs[id].status == s.db.jobs[id].status
  {
    forall y | y in t.submitters ensures !Holds(t.submitters[y], id) {
      assert (step.Submit? && y == step.x) || t.submitters[y] == s.submitters[y];
    }
  }

  lemma StepKeepsOrphans(s: State, t: State, step: Step, id: JobId)
    requires SubmittersOk(s) && HandedOk(s) && Enabled(s, step) && t == After(s, step) && Orphaned(s, id)
    ensures Orphaned(t, id)
    ensures t.db.jobs[id].status == if Cancels(s, step, id) then CANCELLED else s.db.jobs[id].status
  {
    match step
    case SubmitterDoes(x, a) => SubmittersKeepOrphans(s, t, x, a, id);
    case WorkerDoes(w, a) => WorkersKeepOrphans(s, t, w, a, id);
    case CancellerDoes(c, a) => CancellersKeepOrphans(s, t, c, a, id);
    case _ => OthersKeepOrphans(s, t, step, id);
  }

  lemma NextKeepsOrphans(r: Run, i: nat, id: JobId)
    requires r.Valid() && i < r.Length()
    ensures KeepsOrphan(r.states[i], r.states[i + 1], r.steps[i], id)
  {
    RunStep(r, i);
    ReachableHanded(r, i);
    if Orphaned(r.states[i], id) {
      StepKeepsOrphans(r.states[i], r.states[i + 1], r.steps[i], id);
    }
  }

  lemma {:induction false} OrphanChain(states: seq<State>, steps: seq<Step>, i: nat, j: nat, id: JobId)
    requires i <= j < |states| == |steps| + 1 && Orphaned(states[i], id) && IsQueued(states[i].db, id)
    requires forall k | i <= k < j :: KeepsOrphan(states[k], states[k + 1], steps[k], id)
    ensures Orphaned(states[j], id)
    ensures states[j].db.jobs[id].status
            == if exists k | i <= k < j :: Cancels(states[k], steps[k], id) then CANCELLED else QUEUED
    decreases j - i
  {
    if i < j {
      OrphanChain(states, steps, i, j - 1, id);
      assert KeepsOrphan(states[j - 1], states[j - 1 + 1], steps[j - 1], id);
    }
  }

  /**
   * A queued row that was never handed to the queue, and that no call will hand over any more,
   * stays `queued` for the rest of the run unless it is cancelled, and no worker ever gets it.
   */
  lemma OrphanStaysQueued(r: Run, i: nat, j: nat, id: JobId)
    requires r.Valid() && i <= j < |r.states| && Orphaned(r.states[i], id) && IsQueued(r.states[i].db, id)
    ensures id in r.states[j].db.jobs
    ensures r.states[j].db.jobs[id].status
            == if exists k | i <= k < j :: Cancels(r.states[k], r.steps[k], id) then CANCELLED else QUEUED
    ensures forall w | w in r.states[j].workers :: r.states[j].workers[w].jobId != id
  {
    forall k | i <= k < j ensures KeepsOrphan(r.states[k], r.states[k + 1], r.steps[k], id) {
      NextKeepsOrphans(r, k, id);
    }
    OrphanChain(r.states, r.steps, i, j, id);
    ReachableHanded(r, j);
  }
}
