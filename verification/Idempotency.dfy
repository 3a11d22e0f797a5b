/** Submitting with an Idempotency-Key: one job per key, however many calls race. */
module Idempotency {
  import opened Prelude
  import opened Fingerprint
  import opened Models
  import opened Protocol
  import opened Invariants
  import opened Preservation
  import opened Recovery

  // -------------------------------------------------------------- the fingerprint

  /** Different submissions have different fingerprints. */
  ghost predicate Faithful(settings: Settings) {
    forall p, q :: settings.fingerprint(p) == settings.fingerprint(q) ==> p == q
  }

  /** A collision-free hash of the canonical text is faithful. */
  lemma HashedCanonicalTextIsFaithful(settings: Settings, hash: string -> string)
    requires forall a, b :: hash(a) == hash(b) ==> a == b
    requires forall p :: settings.fingerprint(p) == hash(Canonical(p))
    ensures Faithful(settings)
  {
    forall p, q | settings.fingerprint(p) == settings.fingerprint(q) ensures p == q {
      FingerprintIsInjective(p, q);
    }
  }

  // --------------------------------------------------------------------- the calls

  /** Call `x` has returned job `id` to its client. */
  ghost predicate HasReturned(s: State, x: nat, id: JobId) {
    x in s.submitters && s.submitters[x].pc.Returned? && s.submitters[x].pc.id == id
  }

  lemma OthersLeaveCallAlone(s: State, t: State, step: Step, x: nat)
    requires Enabled(s, step) && t == After(s, step) && x in s.submitters && !(step.SubmitterDoes? && step.x == x)
    ensures x in t.submitters && t.submitters[x] == s.submitters[x]
  {
    match step
    case WorkerDoes(w, a) => WorkerFrame(s, t, w, a);
    case SubmitterDoes(y, a) => SubmitterFrame(s, t, y, a);
    case _ =>
  }

  lemma NextKeepsReturned(r: Run, i: nat, x: nat)
    requires r.Valid() && i < r.Length() && x in r.states[i].submitters && r.states[i].submitters[x].pc.Returned?
    ensures x in r.states[i + 1].submitters && r.states[i + 1].submitters[x] == r.states[i].submitters[x]
  {
    RunStep(r, i);
    OthersLeaveCallAlone(r.states[i], r.states[i + 1], r.steps[i], x);
  }

  /** What call `x` has returned in `s` it has returned in `t`. */
  ghost predicate KeepsReturned(s: State, t: State, x: nat) {
    x in s.submitters && s.submitters[x].pc.Returned? ==>
      x in t.submitters && t.submitters[x] == s.submitters[x]
  }

  lemma {:induction false} ReturnedChain(states: seq<State>, i: nat, j: nat, x: nat)
    requires i <= j < |states| && forall k | i <= k < j :: KeepsReturned(states[k], states[k + 1], x)
    ensures KeepsReturned(states[i], states[j], x)
    decreases j - i
  {
    if i < j {
      ReturnedChain(states, i, j - 1, x);
      assert KeepsReturned(states[j - 1], states[j - 1 + 1], x);
    }
  }

  lemma ReturnedStays(r: Run, i: nat, j: nat, x: nat)
    requires r.Valid() && i <= j < |r.states| && x in r.states[i].submitters && r.states[i].submitters[x].pc.Returned?
    ensures x in r.states[j].submitters && r.states[j].submitters[x] == r.states[i].submitters[x]
  {
    forall k | i <= k < j ensures KeepsReturned(r.states[k], r.states[k + 1], x) {
      if x in r.states[k].submitters && r.states[k].submitters[x].pc.Returned? {
        NextKeepsReturned(r, k, x);
      }
    }
    ReturnedChain(r.states, i, j, x);
  }

  /** The table never holds two rows with one key. */
  lemma OneRowPerKey(r: Run, i: nat, a: JobId, b: JobId)
    requires r.Valid() && i < |r.states| && a in r.states[i].db.jobs && b in r.states[i].db.jobs
    requires r.states[i].db.jobs[a].idempotencyKey.Some?
    requires r.states[i].db.jobs[a].idempotencyKey == r.states[i].db.jobs[b].idempotencyKey
    ensures a == b
  {
    ReachableInv(r, i);
  }

  lemma ReturnedJobMatches(s: State, x: nat, id: JobId)
    requires SubmittersOk(s) && HasReturned(s, x, id)
    ensures Matches(s, s.submitters[x], id)
  {
    assert SubmitterOk(s, s.submitters[x]);
  }

  lemma CallsAgreeNow(s: State, x: nat, y: nat, a: JobId, b: JobId)
    requires Inv(s) && HasReturned(s, x, a) && HasReturned(s, y, b)
    requires s.submitters[x].key.Some? && s.submitters[x].key == s.submitters[y].key
    ensures a == b
    ensures x != y ==> s.submitters[x].pc.replayed || s.submitters[y].pc.replayed
  {
    ReturnedJobMatches(s, x, a);
    ReturnedJobMatches(s, y, b);
    assert x != y && Owned(s.submitters[x]).Some? ==> Owned(s.submitters[x]) != Owned(s.submitters[y]);
  }

  /**
   * All calls with one key that return a job, at whatever moments of the run, return the same
   * job, and at most one of them is told that it was created rather than replayed.
   */
  lemma CallsWithOneKeyAgree(r: Run, i: nat, j: nat, x: nat, y: nat, a: JobId, b: JobId)
    requires r.Valid() && i <= j < |r.states| && HasReturned(r.states[i], x, a) && HasReturned(r.states[j], y, b)
    requires r.states[i].submitters[x].key.Some? && r.states[i].submitters[x].key == r.states[j].submitters[y].key
    ensures a == b
    ensures x != y ==> r.states[i].submitters[x].pc.replayed || r.states[j].submitters[y].pc.replayed
  {
    ReturnedStays(r, i, j, x);
    ReachableInv(r, j);
    CallsAgreeNow(r.states[j], x, y, a, b);
  }

  /** With a faithful fingerprint a call only ever returns a job for exactly what it asked. */
  lemma ReturnedJobIsTheOneAskedFor(r: Run, i: nat, x: nat, id: JobId)
    requires r.Valid() && i < |r.states| && HasReturned(r.states[i], x, id) && Faithful(r.states[i].settings)
    ensures id in r.states[i].db.jobs && r.states[i].db.jobs[id].payload == r.states[i].submitters[x].payload
    ensures r.states[i].db.jobs[id].idempotencyKey == r.states[i].submitters[x].key
  {
    ReachableInv(r, i);
    ReturnedJobMatches(r.states[i], x, id);
    assert r.states[i].db.jobs[id].fingerprint == r.states[i].settings.fingerprint(r.states[i].db.jobs[id].payload);
  }

  // ------------------------------------------------------------------- the queue

  lemma PushedGrows(s: State, t: State, step: Step)
    requires Enabled(s, step) && t == After(s, step)
    ensures s.pushed <= t.pushed
  {
    match step
    case WorkerDoes(w, a) => WorkerFrame(s, t, w, a);
    case SubmitterDoes(y, a) => SubmitterFrame(s, t, y, a);
    case _ =>
  }

  lemma NextPushedGrows(r: Run, i: nat)
    requires r.Valid() && i < r.Length()
    ensures r.states[i].pushed <= r.states[i + 1].pushed
  {
    RunStep(r, i);
    PushedGrows(r.states[i], r.states[i + 1], r.steps[i]);
  }

  lemma {:induction false} GrowingChain(states: seq<State>, i: nat, j: nat)
    requires i <= j < |states| && forall k | i <= k < j :: states[k].pushed <= states[k + 1].pushed
    ensures states[i].pushed <= states[j].pushed
    decreases j - i
  {
    if i < j {
      GrowingChain(states, i, j - 1);
      assert states[j - 1].pushed <= states[j - 1 + 1].pushed;
    }
  }

  lemma PushedStays(r: Run, i: nat, j: nat)
    requires r.Valid() && i <= j < |r.states|
    ensures r.states[i].pushed <= r.states[j].pushed
  {
    forall k | i <= k < j ensures r.states[k].pushed <= r.states[k + 1].pushed {
      NextPushedGrows(r, k);
    }
    GrowingChain(r.states, i, j);
  }

  /** Step `i` hands job `id` to the queue. */
  ghost predicate Enqueues(r: Run, i: nat, id: JobId)
    requires i < r.Length() && |r.states| == |r.steps| + 1
  {
    r.steps[i].SubmitterDoes? && r.steps[i].s.Push? && r.steps[i].x in r.states[i].submitters
    && r.states[i].submitters[r.steps[i].x].pc.Inserted? && r.states[i].submitters[r.steps[i].x].pc.id == id
  }

  lemma PushIsRemembered(s: State, t: State, x: nat)
    requires SubmitterCan(s, x, Push) && t == AfterSubmitter(s, x, Push)
    ensures s.submitters[x].pc.id in t.pushed
  {
  }

  /** No job is enqueued twice in a run, however many calls name its key. */
  lemma EnqueuedAtMostOnce(r: Run, i: nat, j: nat, id: JobId)
    requires r.Valid() && i < j < r.Length() && Enqueues(r, i, id)
    ensures !Enqueues(r, j, id)
  {
    RunStep(r, i);
    PushIsRemembered(r.states[i], r.states[i + 1], r.steps[i].x);
    PushedStays(r, i + 1, j);
    ReachableInv(r, j);
    assert id in r.states[j].pushed;
  }

  // ---------------------------------------------------------------- a different body

  /** The key already belongs to a row with another body. */
  ghost predicate KeyBelongsElsewhere(s: State, key: Option<string>, p: Payload) {
    key.Some? && exists id :: id in s.db.jobs && s.db.jobs[id].idempotencyKey == key
                              && s.db.jobs[id].fingerprint != s.settings.fingerprint(p)
  }

  /** The call has neither a row nor a job to return. */
  ghost predicate EmptyHanded(me: Submitter) {
    me.pc.Arrived? || me.pc.Counted? || me.pc.Collided? || me.pc.Refused? || me.pc.Died?
  }

  lemma StaysEmptyHanded(s: State, t: State, x: nat, a: SubmitterAction)
    requires KeysUnique(s.db) && SubmitterCan(s, x, a) && t == AfterSubmitter(s, x, a)
    requires EmptyHanded(s.submitters[x]) && KeyBelongsElsewhere(s, s.submitters[x].key, s.submitters[x].payload)
    ensures EmptyHanded(t.submitters[x]) && t.db == s.db && t.queue == s.queue
    ensures t.submitters[x].key == s.submitters[x].key && t.submitters[x].payload == s.submitters[x].payload
  {
  }

  /** Call `x` has nothing, and its key is taken by another body. */
  ghost predicate ShutOut(s: State, x: nat) {
    x in s.submitters && EmptyHanded(s.submitters[x])
        && KeyBelongsElsewhere(s, s.submitters[x].key, s.submitters[x].payload)
  }

  lemma KeyStaysElsewhere(s: State, t: State, key: Option<string>, p: Payload)
    requires DbEvolves(s.db, t.db) && t.settings == s.settings && KeyBelongsElsewhere(s, key, p)
    ensures KeyBelongsElsewhere(t, key, p)
  {
    var id :| id in s.db.jobs && s.db.jobs[id].idempotencyKey == key
        && s.db.jobs[id].fingerprint != s.settings.fingerprint(p);
    assert Evolves(s.db.jobs[id], t.db.jobs[id]);
  }

  lemma StepKeepsShutOut(s: State, t: State, step: Step, x: nat)
    requires KeysUnique(s.db) && Enabled(s, step) && t == After(s, step) && ShutOut(s, x)
    ensures x in t.submitters && EmptyHanded(t.submitters[x])
    ensures t.submitters[x].key == s.submitters[x].key && t.submitters[x].payload == s.submitters[x].payload
    ensures step.SubmitterDoes? && step.x == x ==> t.db == s.db && t.queue == s.queue
  {
    if step.SubmitterDoes? && step.x == x {
      StaysEmptyHanded(s, t, x, step.s);
    } else {
      OthersLeaveCallAlone(s, t, step, x);
    }
  }

  lemma NextShutOut(r: Run, i: nat, x: nat)
    requires r.Valid() && i < r.Length() && ShutOut(r.states[i], x)
    ensures ShutOut(r.states[i + 1], x)
    ensures r.steps[i].SubmitterDoes? && r.steps[i].x == x
            ==> r.states[i + 1].db == r.states[i].db && r.states[i + 1].queue == r.states[i].queue
  {
    RunStep(r, i);
    StepKeepsShutOut(r.states[i], r.states[i + 1], r.steps[i], x);
    RunEvolves(r, i, i + 1);
    NextClock(r, i);
    KeyStaysElsewhere(r.states[i], r.states[i + 1], r.states[i].submitters[x].key, r.states[i].submitters[x].payload);
  }

  lemma {:induction false} ShutOutChain(states: seq<State>, i: nat, j: nat, x: nat)
    requires i <= j < |states| && ShutOut(states[i], x)
    requires forall k | i <= k < j :: ShutOut(states[k], x) ==> ShutOut(states[k + 1], x)
    ensures ShutOut(states[j], x)
    decreases j - i
  {
    if i < j {
      ShutOutChain(states, i, j - 1, x);
      assert ShutOut(states[j - 1 + 1], x);
    }
  }

  lemma StaysShutOut(r: Run, i: nat, j: nat, x: nat)
    requires r.Valid() && i <= j < |r.states| && ShutOut(r.states[i], x)
    ensures ShutOut(r.states[j], x)
  {
    forall k | i <= k < j && ShutOut(r.states[k], x) ensures ShutOut(r.states[k + 1], x) {
      NextShutOut(r, k, x);
    }
    ShutOutChain(r.states, i, j, x);
  }

  /**
   * A call whose key is already used with another body inserts nothing, enqueues nothing and
   * returns no job, now or later: all its own steps leave the tables and the queue unchanged.
   */
  lemma DifferentBodyIsRefused(r: Run, i: nat, j: nat, x: nat)
    requires r.Valid() && i <= j < |r.states| && ShutOut(r.states[i], x)
    ensures x in r.states[j].submitters && EmptyHanded(r.states[j].submitters[x])
    ensures forall k | i <= k < j && r.steps[k].SubmitterDoes? && r.steps[k].x == x ::
              r.states[k + 1].db == r.states[k].db && r.states[k + 1].queue == r.states[k].queue
  {
    StaysShutOut(r, i, j, x);
    forall k | i <= k < j && r.steps[k].SubmitterDoes? && r.steps[k].x == x
      ensures r.states[k + 1].db == r.states[k].db && r.states[k + 1].queue == r.states[k].queue
    {
      StaysShutOut(r, i, k, x);
      NextShutOut(r, k, x);
    }
  }
}
