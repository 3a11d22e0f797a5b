/** The limits of src/service/schemas.py reach the worker: whatever is stored is a request the engine can run. */
module Requests {
  import opened Fingerprint
  import opened Models
  import opened Protocol

  /** What the schema accepted and the CHECK constraints let in. */
  ghost predicate Runnable(p: Payload) {
    ValidRequest(p) && p.epsilon > 0
  }

  ghost predicate RequestsOk(s: State) {
    (forall x | x in s.submitters :: ValidRequest(s.submitters[x].payload))
    && forall id | id in s.db.jobs :: Runnable(s.db.jobs[id].payload)
  }

  lemma SubmitterKeepsRequests(s: State, t: State, x: nat, a: SubmitterAction)
    requires RequestsOk(s) && SubmitterCan(s, x, a) && t == AfterSubmitter(s, x, a)
    ensures RequestsOk(t)
  {
    forall y | y in t.submitters ensures ValidRequest(t.submitters[y].payload) {
      assert t.submitters[y].payload == s.submitters[y].payload;
    }
    forall id | id in t.db.jobs ensures Runnable(t.db.jobs[id].payload) {
      if id in s.db.jobs {
        assert t.db.jobs[id].payload == s.db.jobs[id].payload;
      } else {
        assert t.db.jobs[id].payload == s.submitters[x].payload;
      }
    }
  }

  /** No row is new and no request changed. */
  ghost predicate SameRequests(a: Database, b: Database) {
    forall id | id in b.jobs :: id in a.jobs && b.jobs[id].payload == a.jobs[id].payload
  }

  lemma WorkerKeepsRequests(s: State, w: nat, a: WorkerAction)
    requires WorkerCan(s, w, a)
    ensures SameRequests(s.db, AfterWorker(s, w, a).db) && AfterWorker(s, w, a).submitters == s.submitters
  {
  }

  lemma CancellerKeepsRequests(s: State, c: nat, a: CancellerAction)
    requires CancellerCan(s, c, a)
    ensures SameRequests(s.db, AfterCanceller(s, c, a).db) && AfterCanceller(s, c, a).submitters == s.submitters
  {
  }

  lemma OthersKeepRequests(s: State, t: State, step: Step)
    requires RequestsOk(s) && Enabled(s, step) && t == After(s, step) && !step.SubmitterDoes?
    ensures RequestsOk(t)
  {
    match step
    case WorkerDoes(w, a) => WorkerKeepsRequests(s, w, a);
    case CancellerDoes(c, a) => CancellerKeepsRequests(s, c, a);
    case _ =>
  }

  lemma {:induction false} ReachableRequests(r: Run, i: nat)
    requires r.Valid() && i < |r.states|
    ensures RequestsOk(r.states[i])
  {
    if i > 0 {
      ReachableRequests(r, i - 1);
      assert Enabled(r.states[i - 1], r.steps[i - 1]) && r.states[i - 1 + 1] == After(r.states[i - 1], r.steps[i - 1]);
      if r.steps[i - 1].SubmitterDoes? {
        SubmitterKeepsRequests(r.states[i - 1], r.states[i], r.steps[i - 1].x, r.steps[i - 1].s);
      } else {
        OthersKeepRequests(r.states[i - 1], r.states[i], r.steps[i - 1]);
      }
    }
  }

  /** Every stored job names one to five different attacks of the catalogue, with a usable budget. */
  lemma StoredRequestsAreRunnable(r: Run, i: nat, id: JobId)
    requires r.Valid() && i < |r.states| && id in r.states[i].db.jobs
    ensures var p := r.states[i].db.jobs[id].payload;
            1 <= |p.attacks| <= 5 && 1 <= p.epsilon <= 1090 && 1 <= p.maxIterations <= 200
            && (forall m, n | 0 <= m < n < |p.attacks| :: p.attacks[m] != p.attacks[n])
            && forall n | 0 <= n < |p.attacks| ::
                 p.attacks[n] == "fgsm" || p.attacks[n] == "pgd" || p.attacks[n] == "cw" || p.attacks[n] == "lbfgs"
                 || p.attacks[n] == "ensemble"
  {
    ReachableRequests(r, i);
    var p := r.states[i].db.jobs[id].payload;
    forall n | 0 <= n < |p.attacks| ensures p.attacks[n] in ATTACK_NAMES {
      assert p.attacks[n] in p.attacks;
    }
  }
}
