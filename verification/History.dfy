/** Runs that grow: one more step, and the states some run reaches. */
module History {
  import opened Models
  import opened Protocol
  import opened Invariants
  import opened Preservation

  ghost function Last(r: Run): State
    requires |r.states| > 0
  {
    r.states[|r.states| - 1]
  }

  ghost predicate Extends(a: Run, b: Run) {
    a.states <= b.states && a.steps <= b.steps
  }

  ghost function Extended(r: Run, step: Step): Run
    requires |r.states| > 0 && Enabled(Last(r), step)
  {
    Run(r.states + [After(Last(r), step)], r.steps + [step])
  }

  lemma ExtendedIsValid(r: Run, step: Step)
    requires r.Valid() && Enabled(Last(r), step)
    ensures var e := Extended(r, step); e.Valid() && Extends(r, e) && Last(e) == After(Last(r), step)
  {
    var e := Extended(r, step);
    forall i | 0 <= i < |e.steps|
      ensures Enabled(e.states[i], e.steps[i]) && e.states[i + 1] == After(e.states[i], e.steps[i])
    {
      if i < |r.steps| {
        assert e.states[i] == r.states[i] && e.states[i + 1] == r.states[i + 1] && e.steps[i] == r.steps[i];
      }
    }
  }

  ghost predicate Reachable(s: State) {
    exists r: Run :: r.Valid() && Last(r) == s
  }

  lemma Next(s: State, step: Step)
    requires Reachable(s) && Enabled(s, step)
    ensures Reachable(After(s, step))
  {
    var r: Run :| r.Valid() && Last(r) == s;
    ExtendedIsValid(r, step);
  }

  lemma ReachableHasInv(s: State)
    requires Reachable(s)
    ensures Inv(s)
  {
    var r: Run :| r.Valid() && Last(r) == s;
    ReachableInv(r, |r.states| - 1);
  }

  ghost function Empty(settings: Settings): State {
    State(settings, Database(map[], []), 0, 0, map[], map[], map[], multiset{}, multiset{})
  }

  lemma EmptyIsReachable(settings: Settings)
    ensures Reachable(Empty(settings)) && Run([Empty(settings)], []).Valid()
  {
    var r := Run([Empty(settings)], []);
    assert r.Valid() && Last(r) == Empty(settings);
  }
}
