/** The capacity check counts before it inserts; how far that can overshoot. */
module Backpressure {
  import opened Prelude
  import opened Models
  import opened Protocol
  import opened Invariants
  import opened Preservation
  import opened Cursor
  import opened Fingerprint
  import opened History
  import opened Recovery

  /** Calls of create_job that have not returned. */
  ghost function InFlight(s: State): set<nat> {
    set x | x in s.submitters && !s.submitters[x].pc.Returned? && !s.submitters[x].pc.Refused?
            && !s.submitters[x].pc.Died?
  }

  /** Calls between the count and the insert. */
  ghost function PastTheCheck(s: State): set<nat> {
    set x | x in s.submitters && s.submitters[x].pc.Counted?
  }

  /** Active jobs, and jobs that have been promised a place. */
  ghost function Load(s: State): nat {
    |ActiveIds(s.db)| + |PastTheCheck(s)|
  }

  lemma Subset<T>(a: set<T>, b: set<T>)
    requires a <= b
    ensures |a| <= |b|
  {
    assert b == a + (b - a);
  }

  lemma SetMinusOne<T>(a: set<T>, x: T)
    requires x in a
    ensures |a| == |a - {x}| + 1
  {
    assert a == (a - {x}) + {x};
  }

  /** The jobs that count against the limit are the queued and the running ones. */
  lemma QueuedAndRunning(jobs: map<JobId, Job>, results: seq<JobResult>)
    ensures |set id | id in jobs && (jobs[id].status == QUEUED || jobs[id].status == RUNNING)|
            == |ActiveIds(Database(jobs, results))|
  {
    var active := set id | id in jobs && (jobs[id].status == QUEUED || jobs[id].status == RUNNING);
    assert active == ActiveIds(Database(jobs, results));
  }

  // ------------------------------------------------- what each step does to the load

  lemma EvolvingActivatesNothing(a: Database, b: Database)
    requires DbEvolves(a, b) && a.jobs.Keys == b.jobs.Keys
    ensures ActiveIds(b) <= ActiveIds(a)
  {
    forall id | id in ActiveIds(b) ensures id in ActiveIds(a) {
      assert Evolves(a.jobs[id], b.jobs[id]);
    }
  }

  lemma WorkersAddNoLoad(s: State, t: State, w: nat, a: WorkerAction)
    requires WorkerCan(s, w, a) && t == AfterWorker(s, w, a)
    ensures t.db.jobs.Keys == s.db.jobs.Keys && PastTheCheck(t) <= PastTheCheck(s)
  {
  }

  lemma SubmittersAddNoLoad(s: State, t: State, x: nat, a: SubmitterAction)
    requires SubmitterCan(s, x, a) && t == AfterSubmitter(s, x, a) && !a.Count? && !a.Commit?
    ensures t.db.jobs.Keys == s.db.jobs.Keys && PastTheCheck(t) <= PastTheCheck(s)
  {
  }

  lemma OtherStepsAddNoLoad(s: State, t: State, step: Step)
    requires Enabled(s, step) && t == After(s, step) && DbEvolves(s.db, t.db)
    requires !(step.SubmitterDoes? && (step.s.Count? || step.s.Commit?))
    ensures t.db.jobs.Keys == s.db.jobs.Keys && PastTheCheck(t) <= PastTheCheck(s)
  {
    match step
    case WorkerDoes(w, a) => WorkersAddNoLoad(s, t, w, a);
    case SubmitterDoes(x, a) => SubmittersAddNoLoad(s, t, x, a);
    case _ =>
  }

  lemma CommitAddsNoLoad(s: State, t: State, x: nat, a: SubmitterAction)
    requires SubmitterCan(s, x, a) && a.Commit? && t == AfterSubmitter(s, x, a)
    ensures ActiveIds(t.db) <= ActiveIds(s.db) + {a.newId}
    ensures PastTheCheck(t) == PastTheCheck(s) - {x} && x in PastTheCheck(s)
  {
  }

  lemma CommitKeepsLoad(s: State, t: State, x: nat, a: SubmitterAction)
    requires SubmitterCan(s, x, a) && a.Commit? && t == AfterSubmitter(s, x, a)
    ensures Load(t) <= Load(s)
  {
    CommitAddsNoLoad(s, t, x, a);
    SetMinusOne(PastTheCheck(s), x);
    Subset(ActiveIds(t.db), ActiveIds(s.db) + {a.newId});
    assert |ActiveIds(s.db) + {a.newId}| <= |ActiveIds(s.db)| + 1;
  }

  /** A call is let through only while there is room, so even then the load stays below room plus calls. */
  lemma CountBoundsLoad(s: State, t: State, x: nat, n: nat)
    requires SubmitterCan(s, x, Count) && t == AfterSubmitter(s, x, Count) && 1 <= n && |InFlight(t)| <= n
    ensures Load(t) <= Load(s) || Load(t) <= s.settings.maxActiveJobs + n - 1
  {
    if t.submitters[x].pc.Counted? {
      Subset(PastTheCheck(t), InFlight(t));
    } else {
      Subset(PastTheCheck(t), PastTheCheck(s));
    }
  }

  lemma StepBoundsLoad(s: State, t: State, step: Step, n: nat)
    requires Enabled(s, step) && t == After(s, step) && DbEvolves(s.db, t.db) && 1 <= n && |InFlight(t)| <= n
    ensures Load(t) <= Load(s) || Load(t) <= s.settings.maxActiveJobs + n - 1
  {
    if step.SubmitterDoes? && step.s.Count? {
      CountBoundsLoad(s, t, step.x, n);
    } else if step.SubmitterDoes? && step.s.Commit? {
      CommitKeepsLoad(s, t, step.x, step.s);
    } else {
      OtherStepsAddNoLoad(s, t, step);
      EvolvingActivatesNothing(s.db, t.db);
      Subset(ActiveIds(t.db), ActiveIds(s.db));
      Subset(PastTheCheck(t), PastTheCheck(s));
    }
  }

  lemma NextBoundsLoad(r: Run, i: nat, n: nat)
    requires r.Valid() && i < r.Length() && 1 <= n && |InFlight(r.states[i + 1])| <= n
    ensures Load(r.states[i + 1]) <= Load(r.states[i])
            || Load(r.states[i + 1]) <= r.states[i].settings.maxActiveJobs + n - 1
  {
    RunStep(r, i);
    RunEvolves(r, i, i + 1);
    StepBoundsLoad(r.states[i], r.states[i + 1], r.steps[i], n);
  }

  // ---------------------------------------------------------------------- the bound

  /** A load within the bound stays within it. */
  ghost predicate StaysBounded(s: State, t: State, bound: nat) {
    Load(s) <= bound ==> Load(t) <= bound
  }

  lemma NextStaysBounded(r: Run, i: nat, n: nat)
    requires r.Valid() && i < r.Length() && 1 <= n && |InFlight(r.states[i + 1])| <= n
    ensures StaysBounded(r.states[i], r.states[i + 1], r.states[0].settings.maxActiveJobs + n - 1)
  {
    NextBoundsLoad(r, i, n);
    ClockIsMonotone(r, 0, i);
  }

  lemma {:induction false} BoundedChain(states: seq<State>, i: nat, bound: nat)
    requires i < |states| && Load(states[0]) <= bound
    requires forall k | 0 <= k < i :: StaysBounded(states[k], states[k + 1], bound)
    ensures Load(states[i]) <= bound
  {
    if i > 0 {
      BoundedChain(states, i - 1, bound);
      assert StaysBounded(states[i - 1], states[i - 1 + 1], bound);
    }
  }

  lemma LoadIsBounded(r: Run, i: nat, n: nat)
    requires r.Valid() && i < |r.states| && 1 <= n && forall k | 0 <= k <= i :: |InFlight(r.states[k])| <= n
    ensures Load(r.states[i]) <= r.states[0].settings.maxActiveJobs + n - 1
  {
    assert ActiveIds(r.states[0].db) == {} && PastTheCheck(r.states[0]) == {};
    var bound := r.states[0].settings.maxActiveJobs + n - 1;
    forall k | 0 <= k < i ensures StaysBounded(r.states[k], r.states[k + 1], bound) {
      NextStaysBounded(r, k, n);
    }
    BoundedChain(r.states, i, bound);
  }

  /**
   * With at most n submissions in flight at once, queued plus running jobs never exceed the
   * limit by more than n - 1; submitted one at a time they never exceed it.
   */
  lemma ActiveJobsAreBounded(r: Run, i: nat, n: nat)
    requires r.Valid() && i < |r.states| && 1 <= n && forall k | 0 <= k <= i :: |InFlight(r.states[k])| <= n
    ensures var jobs := r.states[i].db.jobs;
            |set id | id in jobs && (jobs[id].status == QUEUED || jobs[id].status == RUNNING)|
            <= r.states[0].settings.maxActiveJobs + n - 1
  {
    LoadIsBounded(r, i, n);
    QueuedAndRunning(r.states[i].db.jobs, r.states[i].db.results);
  }

  // ------------------------------------------------------------ the bound is attained

  /** A run in which at most `n` calls are ever in flight. */
  ghost predicate Within(r: Run, n: nat) {
    r.Valid() && forall i | 0 <= i < |r.states| :: |InFlight(r.states[i])| <= n
  }

  lemma ExtendWithin(r: Run, step: Step, n: nat) returns (e: Run)
    requires Within(r, n) && Enabled(Last(r), step) && |InFlight(After(Last(r), step))| <= n
    ensures Within(e, n) && Last(e) == After(Last(r), step)
  {
    ExtendedIsValid(r, step);
    e := Extended(r, step);
    forall i | 0 <= i < |e.states| ensures |InFlight(e.states[i])| <= n {
      assert i < |r.states| ==> e.states[i] == r.states[i];
    }
  }

  ghost predicate AtStage(me: Submitter, p: Payload, ids: seq<JobId>, x: nat, a: nat, c: nat)
    requires c <= |ids|
  {
    me.payload == p && me.key == None
    && if x < a then me.pc.Returned? else if x < c then me.pc.Inserted? && me.pc.id == ids[x] else me.pc.Counted?
  }

  /**
   * Calls 0 to a - 1 have returned, a to c - 1 have inserted their rows, and c to b - 1 are
   * between the count and the insert; the table holds the rows of the first c.
   */
  ghost predicate Stage(s: State, settings: Settings, p: Payload, ids: seq<JobId>, a: nat, c: nat, b: nat) {
    a <= c <= b && c <= |ids| && s.settings == settings
    && (forall x: nat :: x in s.submitters <==> x < b)
    && (forall x | x in s.submitters :: AtStage(s.submitters[x], p, ids, x, a, c))
    && (forall id :: id in s.db.jobs <==> id in ids[..c])
    && forall id | id in s.db.jobs :: s.db.jobs[id].status == QUEUED && s.db.jobs[id].idempotencyKey == None
  }

  lemma {:induction false} RangeIsSmall(s: set<nat>, a: nat, b: nat)
    requires a <= b && forall x | x in s :: a <= x < b
    ensures |s| <= b - a
    decreases b
  {
    if a == b {
      assert s == {};
    } else {
      RangeIsSmall(s - {b - 1}, a, b - 1);
      assert s <= (s - {b - 1}) + {b - 1};
      Subset(s, (s - {b - 1}) + {b - 1});
    }
  }

  lemma {:induction false} DistinctCount(s: set<JobId>, ids: seq<JobId>, c: nat)
    requires NoDuplicates(ids) && c <= |ids| && forall id :: id in s <==> id in ids[..c]
    ensures |s| == c
  {
    if c == 0 {
      assert s == {};
    } else {
      var last := ids[c - 1];
      assert ids[..c] == ids[..c - 1] + [last];
      forall id ensures id in s - {last} <==> id in ids[..c - 1] {
        assert last !in ids[..c - 1];
      }
      DistinctCount(s - {last}, ids, c - 1);
      SetMinusOne(s, last);
    }
  }

  lemma StageIsActive(s: State, settings: Settings, p: Payload, ids: seq<JobId>, a: nat, c: nat, b: nat)
    requires Stage(s, settings, p, ids, a, c, b) && NoDuplicates(ids)
    ensures |ActiveIds(s.db)| == c
  {
    DistinctCount(ActiveIds(s.db), ids, c);
  }

  /** The stage, and one more call that has not counted yet. */
  ghost predicate Arriving(s: State, settings: Settings, p: Payload, ids: seq<JobId>, a: nat, c: nat, b: nat) {
    b in s.submitters && s.submitters[b] == Submitter(p, None, Arrived)
    && Stage(s.(submitters := s.submitters - {b}), settings, p, ids, a, c, b)
  }

  lemma Approach(r: Run, n: nat, settings: Settings, p: Payload, ids: seq<JobId>, a: nat, c: nat, b: nat)
    returns (e: Run)
    requires Within(r, n) && Stage(Last(r), settings, p, ids, a, c, b) && ValidRequest(p) && b - a < n
    ensures Within(e, n) && Arriving(Last(e), settings, p, ids, a, c, b)
  {
    var s := Last(r);
    var arrived := After(s, Submit(b, p, None));
    RangeIsSmall(InFlight(arrived), a, b + 1);
    assert arrived.submitters - {b} == s.submitters;
    assert arrived.(submitters := s.submitters) == s;
    e := ExtendWithin(r, Submit(b, p, None), n);
  }

  lemma PassTheCheck(r: Run, n: nat, settings: Settings, p: Payload, ids: seq<JobId>, a: nat, c: nat, b: nat)
    returns (e: Run)
    requires Within(r, n) && Arriving(Last(r), settings, p, ids, a, c, b) && NoDuplicates(ids)
    requires c < settings.maxActiveJobs && b - a < n
    ensures Within(e, n) && Stage(Last(e), settings, p, ids, a, c, b + 1)
  {
    var s := Last(r);
    StageIsActive(s.(submitters := s.submitters - {b}), settings, p, ids, a, c, b);
    var counted := After(s, SubmitterDoes(b, Count));
    forall x | x in counted.submitters && x != b ensures AtStage(counted.submitters[x], p, ids, x, a, c) {
      assert x in s.submitters - {b} && counted.submitters[x] == (s.submitters - {b})[x];
    }
    forall x: nat ensures x in counted.submitters <==> x < b + 1 {
      assert x in s.submitters - {b} <==> x in s.submitters && x != b;
    }
    assert Stage(counted, settings, p, ids, a, c, b + 1);
    RangeIsSmall(InFlight(counted), a, b + 1);
    e := ExtendWithin(r, SubmitterDoes(b, Count), n);
  }

  /** One more call arrives and counts fewer rows than the limit. */
  lemma Enter(r: Run, n: nat, settings: Settings, p: Payload, ids: seq<JobId>, a: nat, c: nat, b: nat) returns (e: Run)
    requires Within(r, n) && Stage(Last(r), settings, p, ids, a, c, b) && NoDuplicates(ids) && ValidRequest(p)
    requires c < settings.maxActiveJobs && b - a < n
    ensures Within(e, n) && Stage(Last(e), settings, p, ids, a, c, b + 1)
  {
    e := Approach(r, n, settings, p, ids, a, c, b);
    e := PassTheCheck(e, n, settings, p, ids, a, c, b);
  }

  /** The first call past the check inserts its row. */
  lemma Insert(
    r: Run, n: nat, settings: Settings, p: Payload, ids: seq<JobId>, createdAt: Moment, a: nat, c: nat, b: nat)
    returns (e: Run)
    requires Within(r, n) && Stage(Last(r), settings, p, ids, a, c, b) && NoDuplicates(ids) && ValidRequest(p)
        && p.epsilon > 0
    requires c < b && c < |ids| && b - a <= n
    ensures Within(e, n) && Stage(Last(e), settings, p, ids, a, c + 1, b)
  {
    var s, step := Last(r), SubmitterDoes(c, Commit(ids[c], createdAt));
    assert ids[c] !in ids[..c] && ids[..c + 1] == ids[..c] + [ids[c]];
    var t := After(s, step);
    assert Stage(t, settings, p, ids, a, c + 1, b);
    RangeIsSmall(InFlight(t), a, b);
    e := ExtendWithin(r, step, n);
  }

  /** The first call that has inserted its row enqueues it and returns. */
  lemma Leave(r: Run, n: nat, settings: Settings, p: Payload, ids: seq<JobId>, a: nat, c: nat, b: nat) returns (e: Run)
    requires Within(r, n) && Stage(Last(r), settings, p, ids, a, c, b) && a < c && b - a <= n
    ensures Within(e, n) && Stage(Last(e), settings, p, ids, a + 1, c, b)
  {
    var pushed := After(Last(r), SubmitterDoes(a, Push));
    RangeIsSmall(InFlight(pushed), a, b);
    e := ExtendWithin(r, SubmitterDoes(a, Push), n);
    var t := After(pushed, SubmitterDoes(a, EnqueueReturn));
    assert Stage(t, settings, p, ids, a + 1, c, b);
    RangeIsSmall(InFlight(t), a + 1, b);
    e := ExtendWithin(e, SubmitterDoes(a, EnqueueReturn), n);
  }

  /** `k` calls, one after the other. */
  lemma {:induction false} Settle(settings: Settings, p: Payload, ids: seq<JobId>, createdAt: Moment, n: nat, k: nat)
    returns (r: Run)
    requires NoDuplicates(ids) && ValidRequest(p) && p.epsilon > 0 && n >= 1 && k < settings.maxActiveJobs && k <= |ids|
    ensures Within(r, n) && Stage(Last(r), settings, p, ids, k, k, k)
  {
    if k == 0 {
      EmptyIsReachable(settings);
      r := Run([Empty(settings)], []);
      assert InFlight(Empty(settings)) == {};
    } else {
      r := Settle(settings, p, ids, createdAt, n, k - 1);
      r := Enter(r, n, settings, p, ids, k - 1, k - 1, k - 1);
      r := Insert(r, n, settings, p, ids, createdAt, k - 1, k - 1, k);
      r := Leave(r, n, settings, p, ids, k - 1, k, k);
    }
  }

  /** ... and then `k` calls that all count before any of them inserts. */
  lemma {:induction false} Crowd(settings: Settings, p: Payload, ids: seq<JobId>, createdAt: Moment, n: nat, k: nat)
    returns (r: Run)
    requires NoDuplicates(ids) && ValidRequest(p) && p.epsilon > 0 && n >= 1 && k <= n
    requires 1 <= settings.maxActiveJobs <= |ids| + 1
    ensures Within(r, n)
    ensures var m := settings.maxActiveJobs - 1; Stage(Last(r), settings, p, ids, m, m, m + k)
  {
    var m := settings.maxActiveJobs - 1;
    if k == 0 {
      r := Settle(settings, p, ids, createdAt, n, m);
    } else {
      r := Crowd(settings, p, ids, createdAt, n, k - 1);
      r := Enter(r, n, settings, p, ids, m, m, m + k - 1);
    }
  }

  /** ... and `k` of them insert. */
  lemma {:induction false} Fill(settings: Settings, p: Payload, ids: seq<JobId>, createdAt: Moment, n: nat, k: nat)
    returns (r: Run)
    requires NoDuplicates(ids) && ValidRequest(p) && p.epsilon > 0 && 1 <= n && k <= n
    requires 1 <= settings.maxActiveJobs && settings.maxActiveJobs + n - 1 <= |ids|
    ensures Within(r, n)
    ensures var m := settings.maxActiveJobs - 1; Stage(Last(r), settings, p, ids, m, m + k, m + n)
  {
    var m := settings.maxActiveJobs - 1;
    if k == 0 {
      r := Crowd(settings, p, ids, createdAt, n, n);
    } else {
      r := Fill(settings, p, ids, createdAt, n, k - 1);
      r := Insert(r, n, settings, p, ids, createdAt, m, m + k - 1, m + n);
    }
  }

  /** For every limit and every number of calls in flight the bound is attained. */
  lemma BoundIsAttained(settings: Settings, p: Payload, ids: seq<JobId>, createdAt: Moment, n: nat) returns (r: Run)
    requires NoDuplicates(ids) && ValidRequest(p) && p.epsilon > 0
    requires 1 <= settings.maxActiveJobs && 1 <= n && |ids| == settings.maxActiveJobs + n - 1
    ensures Within(r, n) && Last(r).settings == settings
    ensures var jobs := Last(r).db.jobs;
            |set id | id in jobs && (jobs[id].status == QUEUED || jobs[id].status == RUNNING)|
            == settings.maxActiveJobs + n - 1
  {
    r := Fill(settings, p, ids, createdAt, n, n);
    StageIsActive(Last(r), settings, p, ids, settings.maxActiveJobs - 1, |ids|, |ids|);
    QueuedAndRunning(Last(r).db.jobs, Last(r).db.results);
  }

  // -------------------------------------------------------- when the limit is respected

  /** No run with at most `n` calls in flight ever has more active jobs than the limit. */
  ghost predicate LimitHolds(settings: Settings, n: nat) {
    forall r: Run, i: nat | Within(r, n) && i < |r.states| && r.states[0].settings == settings ::
      var jobs := r.states[i].db.jobs;
      |set id | id in jobs && (jobs[id].status == QUEUED || jobs[id].status == RUNNING)| <= settings.maxActiveJobs
  }

  ghost predicate NothingAdmitted(s: State) {
    s.db.jobs == map[] && PastTheCheck(s) == {}
  }

  lemma CountAdmitsNothing(s: State, t: State, x: nat)
    requires SubmitterCan(s, x, Count) && t == AfterSubmitter(s, x, Count)
    requires s.settings.maxActiveJobs == 0 && NothingAdmitted(s)
    ensures NothingAdmitted(t)
  {
    forall y | y in PastTheCheck(t) ensures y in PastTheCheck(s) {
    }
  }

  lemma NextAdmitsNothing(r: Run, i: nat)
    requires r.Valid() && i < r.Length() && r.states[i].settings.maxActiveJobs == 0 && NothingAdmitted(r.states[i])
    ensures NothingAdmitted(r.states[i + 1])
  {
    var s, t, step := r.states[i], r.states[i + 1], r.steps[i];
    RunStep(r, i);
    RunEvolves(r, i, i + 1);
    assert step.SubmitterDoes? ==> step.x !in PastTheCheck(s);
    assert !(step.SubmitterDoes? && step.s.Commit?);
    if step.SubmitterDoes? && step.s.Count? {
      CountAdmitsNothing(s, t, step.x);
    } else {
      OtherStepsAddNoLoad(s, t, step);
      assert t.db.jobs.Keys == {};
    }
  }

  /** With a limit of 0 nothing is ever admitted. */
  lemma {:induction false} ZeroAdmitsNothing(r: Run, i: nat)
    requires r.Valid() && i < |r.states| && r.states[0].settings.maxActiveJobs == 0
    ensures NothingAdmitted(r.states[i])
  {
    if i > 0 {
      ZeroAdmitsNothing(r, i - 1);
      ClockIsMonotone(r, 0, i - 1);
      NextAdmitsNothing(r, i - 1);
    }
  }

  /** There are no more jobs than identifiers. */
  lemma {:induction false} IdsAreFinite(s: set<JobId>, bound: nat)
    requires forall id | id in s :: id < bound
    ensures |s| <= bound
  {
    if bound == 0 {
      assert s == {};
    } else {
      var top := bound - 1;
      if top in s {
        IdsAreFinite(s - {top}, top);
        SetMinusOne(s, top);
      } else {
        IdsAreFinite(s, top);
      }
    }
  }

  lemma LimitHoldsInTheThreeCases(settings: Settings, n: nat, r: Run, i: nat)
    requires n <= 1 || settings.maxActiveJobs == 0 || settings.maxActiveJobs >= UUID_LIMIT
    requires Within(r, n) && i < |r.states| && r.states[0].settings == settings
    ensures var jobs := r.states[i].db.jobs;
            |set id | id in jobs && (jobs[id].status == QUEUED || jobs[id].status == RUNNING)| <= settings.maxActiveJobs
  {
    if n <= 1 {
      ActiveJobsAreBounded(r, i, 1);
    } else if settings.maxActiveJobs == 0 {
      ZeroAdmitsNothing(r, i);
      assert ActiveIds(r.states[i].db) == {};
    } else {
      IdsAreFinite(ActiveIds(r.states[i].db), UUID_LIMIT);
      QueuedAndRunning(r.states[i].db.jobs, r.states[i].db.results);
    }
  }

  lemma TwoCallsExceedTheLimit(settings: Settings) returns (r: Run)
    requires 1 <= settings.maxActiveJobs < UUID_LIMIT
    ensures Within(r, 2) && r.states[0].settings == settings
    ensures var jobs := Last(r).db.jobs;
            |set id | id in jobs && (jobs[id].status == QUEUED || jobs[id].status == RUNNING)|
            == settings.maxActiveJobs + 1
  {
    var ids: seq<JobId> := seq(settings.maxActiveJobs + 1, i requires 0 <= i < UUID_LIMIT => i);
    r := BoundIsAttained(settings, Payload([], [ATTACK_NAMES[0]], 1, 1), ids, DateTime(2024, 1, 1, 0, 0, 0, 0), 2);
    ClockIsMonotone(r, 0, |r.states| - 1);
  }

  /**
   * The limit is respected by every run with at most n calls in flight if and only if calls
   * are serial - or nothing is admitted at all, or the limit is no smaller than the number of
   * identifiers there are.
   */
  lemma LimitHoldsExactlyWhenSerial(settings: Settings, n: nat)
    ensures LimitHolds(settings, n) <==> n <= 1 || settings.maxActiveJobs == 0 || settings.maxActiveJobs >= UUID_LIMIT
  {
    if n <= 1 || settings.maxActiveJobs == 0 || settings.maxActiveJobs >= UUID_LIMIT {
      forall r: Run, i: nat | Within(r, n) && i < |r.states| && r.states[0].settings == settings
        ensures var jobs := r.states[i].db.jobs;
                |set id | id in jobs && (jobs[id].status == QUEUED || jobs[id].status == RUNNING)|
                <= settings.maxActiveJobs
      {
        LimitHoldsInTheThreeCases(settings, n, r, i);
      }
    } else {
      var r := TwoCallsExceedTheLimit(settings);
      assert Within(r, n);
      var i := |r.states| - 1;
      assert !(var jobs := r.states[i].db.jobs;
               |set id | id in jobs && (jobs[id].status == QUEUED || jobs[id].status == RUNNING)|
               <= settings.maxActiveJobs);
    }
  }
}
