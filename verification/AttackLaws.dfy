/**
 * The attacks of src/benchmark/attacks.py coordinate by coordinate, with every constant written
 * out: what their outputs are, stated apart from the functions that compute them.
 */
module AttackLaws {
  import opened Prelude
  import opened Attacks

  /** Into the ball around `origin` first, then into [0, 1]. */
  function Projected(p: real, origin: real, e: real): real {
    Min(1.0, Max(0.0, Min(origin + e, Max(origin - e, p))))
  }

  /** One step of length `size` up the gradient `g`. */
  function Climbed(x: real, g: real, size: real): real {
    if g > 0.0 then x + size else if g < 0.0 then x - size else x
  }

  lemma ClipIsProjected(p: real, origin: real, e: real)
    requires 0.0 <= e
    ensures Clip(p, origin, e) == Projected(p, origin, e)
  {
  }

  lemma StepIsProjectedClimb(o: Oracle, x: Batch, X: Batch, y: Labels, e: real, size: real, i: nat, j: nat)
    requires SameShape(x, X) && 0.0 <= e && i < |X| && j < |X[i]|
    ensures PgdStep(o, x, X, y, e, size)[i][j]
            == Projected(Climbed(x[i][j], o.gradient(x, y, i, j), size), X[i][j], e)
  {
    assert SignStep(o, x, X, y, size)[i][j] == Climbed(x[i][j], o.gradient(x, y, i, j), size);
    ClipIsProjected(Climbed(x[i][j], o.gradient(x, y, i, j), size), X[i][j], e);
  }

  // --------------------------------------------------------------------- PGD

  ghost predicate IsPgdMove(o: Oracle, X: Batch, y: Labels, e: real, size: real, x: Batch, next: Batch)
    requires SameShape(x, X) && SameShape(next, X)
  {
    forall i, j | 0 <= i < |X| && 0 <= j < |X[i]| ::
      next[i][j] == Projected(Climbed(x[i][j], o.gradient(x, y, i, j), size), X[i][j], e)
  }

  /** A random start in the ball, and one projected step up the gradient after another. */
  ghost predicate IsPgdTrace(o: Oracle, X: Batch, y: Labels, e: real, size: real, xs: seq<Batch>) {
    |xs| > 0 && (forall k | 0 <= k < |xs| :: SameShape(xs[k], X))
    && (forall i, j | 0 <= i < |X| && 0 <= j < |X[i]| ::
          xs[0][i][j] == Projected(X[i][j] + o.noise(X, i, j), X[i][j], e))
    && forall k | 0 < k < |xs| :: IsPgdMove(o, X, y, e, size, xs[k - 1], xs[k])
  }

  lemma StartIsProjectedNoise(o: Oracle, X: Batch, y: Labels, e: real, size: real, i: nat, j: nat)
    requires 0.0 <= e && i < |X| && j < |X[i]|
    ensures PgdIterate(o, X, y, e, size, 0)[i][j] == Projected(X[i][j] + o.noise(X, i, j), X[i][j], e)
  {
    ClipIsProjected(X[i][j] + o.noise(X, i, j), X[i][j], e);
  }

  lemma {:induction false} TraceIsIterates(
    o: Oracle, X: Batch, y: Labels, e: real, size: real, xs: seq<Batch>, k: nat)
    requires 0.0 <= e && IsPgdTrace(o, X, y, e, size, xs) && k < |xs|
    ensures xs[k] == PgdIterate(o, X, y, e, size, k)
  {
    var it := PgdIterate(o, X, y, e, size, k);
    if k == 0 {
      forall i, j | 0 <= i < |X| && 0 <= j < |X[i]| ensures xs[0][i][j] == it[i][j] {
        StartIsProjectedNoise(o, X, y, e, size, i, j);
      }
    } else {
      TraceIsIterates(o, X, y, e, size, xs, k - 1);
      assert IsPgdMove(o, X, y, e, size, xs[k - 1], xs[k]);
      forall i, j | 0 <= i < |X| && 0 <= j < |X[i]| ensures xs[k][i][j] == it[i][j] {
        StepIsProjectedClimb(o, xs[k - 1], X, y, e, size, i, j);
      }
    }
    EqualByCoordinates(xs[k], it);
  }

  /** PGD returns the end of its trace of max(1, max_iterations) steps of 2.5 epsilon over their number. */
  lemma PgdEndsItsTrace(o: Oracle, X: Batch, y: Labels, epsilon: real, maxIterations: int, xs: seq<Batch>)
    requires 0.0 < epsilon
    requires var e, n := if epsilon <= 0.109 then epsilon else 0.109, if maxIterations >= 1 then maxIterations else 1;
             |xs| == n + 1 && IsPgdTrace(o, X, y, e, 2.5 * e / n as real, xs)
    ensures PgdOutput(o, X, y, epsilon, maxIterations) == xs[|xs| - 1]
  {
    var e, n := if epsilon <= 0.109 then epsilon else 0.109, if maxIterations >= 1 then maxIterations else 1;
    TraceIsIterates(o, X, y, e, 2.5 * e / n as real, xs, n);
  }

  /** Every call has such a trace. */
  lemma {:induction false} PgdHasATrace(o: Oracle, X: Batch, y: Labels, e: real, size: real, n: nat)
    returns (xs: seq<Batch>)
    requires 0.0 <= e
    ensures |xs| == n + 1 && IsPgdTrace(o, X, y, e, size, xs) && xs[n] == PgdIterate(o, X, y, e, size, n)
  {
    if n == 0 {
      xs := [PgdIterate(o, X, y, e, size, 0)];
      forall i, j | 0 <= i < |X| && 0 <= j < |X[i]|
        ensures xs[0][i][j] == Projected(X[i][j] + o.noise(X, i, j), X[i][j], e)
      {
        StartIsProjectedNoise(o, X, y, e, size, i, j);
      }
    } else {
      var before := PgdHasATrace(o, X, y, e, size, n - 1);
      var next := PgdIterate(o, X, y, e, size, n);
      forall i, j | 0 <= i < |X| && 0 <= j < |X[i]|
        ensures next[i][j]
                == Projected(Climbed(before[n - 1][i][j], o.gradient(before[n - 1], y, i, j), size), X[i][j], e)
      {
        StepIsProjectedClimb(o, before[n - 1], X, y, e, size, i, j);
      }
      xs := before + [next];
      assert IsPgdMove(o, X, y, e, size, before[n - 1], next);
      forall k | 0 < k < |xs| ensures IsPgdMove(o, X, y, e, size, xs[k - 1], xs[k]) {
        assert k < n ==> IsPgdMove(o, X, y, e, size, before[k - 1], before[k]);
      }
    }
  }

  // --------------------------------------------------- Carlini-Wagner and L-BFGS

  ghost predicate IsCwMove(o: Oracle, X: Batch, y: Labels, e: real, before: seq<Batch>, next: Batch)
    requires SameShape(next, X)
  {
    forall i, j | 0 <= i < |X| && 0 <= j < |X[i]| :: next[i][j] == o.adam(before, X, y, e, i, j)
  }

  /** The optimiser's variable: zero, and then whatever one Adam step after another makes of it. */
  ghost predicate IsCwTrace(o: Oracle, X: Batch, y: Labels, e: real, ws: seq<Batch>) {
    |ws| > 0 && (forall k | 0 <= k < |ws| :: SameShape(ws[k], X))
    && (forall i, j | 0 <= i < |X| && 0 <= j < |X[i]| :: ws[0][i][j] == 0.0)
    && forall k | 0 < k < |ws| :: IsCwMove(o, X, y, e, ws[..k], ws[k])
  }

  lemma {:induction false} CwTraceIsHistory(o: Oracle, X: Batch, y: Labels, e: real, ws: seq<Batch>, k: nat)
    requires IsCwTrace(o, X, y, e, ws) && k < |ws|
    ensures ws[..k + 1] == CwHistory(o, X, y, e, k)
  {
    var h := CwHistory(o, X, y, e, k);
    if k == 0 {
      EqualByCoordinates(ws[0], h[0]);
    } else {
      CwTraceIsHistory(o, X, y, e, ws, k - 1);
      assert IsCwMove(o, X, y, e, ws[..k], ws[k]);
      EqualByCoordinates(ws[k], h[k]);
      assert ws[..k + 1] == ws[..k] + [ws[k]];
    }
  }

  lemma WholeCwTraceIsHistory(o: Oracle, X: Batch, y: Labels, e: real, ws: seq<Batch>)
    requires IsCwTrace(o, X, y, e, ws)
    ensures ws == CwHistory(o, X, y, e, |ws| - 1)
  {
    CwTraceIsHistory(o, X, y, e, ws, |ws| - 1);
    assert ws[..|ws| - 1 + 1] == ws;
  }

  lemma CwImageAt(o: Oracle, w: Batch, X: Batch, e: real, i: nat, j: nat)
    requires SameShape(w, X) && 0.0 <= e && i < |X| && j < |X[i]|
    ensures CwImage(o, w, X, e)[i][j] == Projected(0.5 * (o.tanh(w[i][j]) + 1.0), X[i][j], e)
  {
    ClipIsProjected(0.5 * (o.tanh(w[i][j]) + 1.0), X[i][j], e);
  }

  /** The budget the attacks work with, and the number of their steps. */
  ghost predicate IsBudget(epsilon: real, maxIterations: int, e: real, n: nat) {
    e == (if epsilon <= 0.109 then epsilon else 0.109) && n == if maxIterations >= 1 then maxIterations else 1
  }

  lemma CwOutputAt(
    o: Oracle, X: Batch, y: Labels, epsilon: real, maxIterations: int, e: real, n: nat, ws: seq<Batch>, i: nat, j: nat)
    requires 0.0 < epsilon && i < |X| && j < |X[i]| && IsBudget(epsilon, maxIterations, e, n)
    requires ws == CwHistory(o, X, y, e, n)
    ensures |ws| == n + 1 && SameShape(ws[n], X)
    ensures CwOutput(o, X, y, epsilon, maxIterations)[i][j]
            == Projected(0.5 * (o.tanh(ws[n][i][j]) + 1.0), X[i][j], e)
  {
    CwImageAt(o, ws[n], X, e, i, j);
  }

  /** C&W returns the projected tanh image of the variable after max(1, max_iterations) steps. */
  lemma CwEndsItsTrace(
    o: Oracle, X: Batch, y: Labels, epsilon: real, maxIterations: int, ws: seq<Batch>, i: nat, j: nat)
    requires 0.0 < epsilon && i < |X| && j < |X[i]|
    requires var e, n := if epsilon <= 0.109 then epsilon else 0.109, if maxIterations >= 1 then maxIterations else 1;
             |ws| == n + 1 && IsCwTrace(o, X, y, e, ws)
    ensures var e := if epsilon <= 0.109 then epsilon else 0.109;
            CwOutput(o, X, y, epsilon, maxIterations)[i][j]
            == Projected(0.5 * (o.tanh(ws[|ws| - 1][i][j]) + 1.0), X[i][j], e)
  {
    var e, n := if epsilon <= 0.109 then epsilon else 0.109, if maxIterations >= 1 then maxIterations else 1;
    WholeCwTraceIsHistory(o, X, y, e, ws);
    CwOutputAt(o, X, y, epsilon, maxIterations, e, n, ws, i, j);
  }

  lemma CwHasATrace(o: Oracle, X: Batch, y: Labels, e: real, n: nat)
    ensures IsCwTrace(o, X, y, e, CwHistory(o, X, y, e, n))
  {
    var ws := CwHistory(o, X, y, e, n);
    if n > 0 {
      CwHasATrace(o, X, y, e, n - 1);
      var before := CwHistory(o, X, y, e, n - 1);
      assert ws[..n] == before;
      forall k | 0 < k < |ws| ensures IsCwMove(o, X, y, e, ws[..k], ws[k]) {
        if k < n {
          assert ws[..k] == before[..k] && IsCwMove(o, X, y, e, before[..k], before[k]);
        }
      }
    }
  }

  /** L-BFGS returns the projected iterate of its optimiser, after max(1, max_iterations) iterations at most. */
  lemma LbfgsIsTheProjectedIterate(o: Oracle, X: Batch, y: Labels, epsilon: real, maxIterations: int, i: nat, j: nat)
    requires 0.0 < epsilon && i < |X| && j < |X[i]|
    ensures var e, n := if epsilon <= 0.109 then epsilon else 0.109, if maxIterations >= 1 then maxIterations else 1;
            LbfgsOutput(o, X, y, epsilon, maxIterations)[i][j] == Projected(o.lbfgs(X, y, n, i, j), X[i][j], e)
  {
    var e, n := if epsilon <= 0.109 then epsilon else 0.109, if maxIterations >= 1 then maxIterations else 1;
    ClipIsProjected(LbfgsIterate(o, X, y, n)[i][j], X[i][j], e);
  }

  // ---------------------------------------------------------------- ensemble

  lemma MeansCompare(a: real, s: real, b: real, t: real, n: nat)
    requires n > 0 && a == s / n as real && b == t / n as real
    ensures a >= b <==> s >= t
  {
    if a >= b {
      DivideBySize(t, s, n);
    } else {
      DivideBySize(s, t, n);
    }
  }

  lemma FirstStrongest(o: Oracle, cs: seq<Batch>, y: Labels, size: nat)
    requires |cs| == 3 && 0 < size <= |y| && forall c | c in cs :: |c| == size
    ensures Strongest(o, cs, y)
            == if SumNll(o, cs[0], y) >= SumNll(o, cs[1], y) && SumNll(o, cs[0], y) >= SumNll(o, cs[2], y) then 0
               else if SumNll(o, cs[1], y) >= SumNll(o, cs[2], y) then 1 else 2
  {
    var ls := Losses(o, cs, y);
    MeansCompare(ls[0], SumNll(o, cs[0], y), ls[1], SumNll(o, cs[1], y), size);
    MeansCompare(ls[0], SumNll(o, cs[0], y), ls[2], SumNll(o, cs[2], y), size);
    MeansCompare(ls[1], SumNll(o, cs[1], y), ls[2], SumNll(o, cs[2], y), size);
  }

  /** The ensemble returns one of its three members, and the first of those with the largest loss. */
  lemma EnsembleIsTheFirstStrongest(o: Oracle, X: Batch, y: Labels, epsilon: real, maxIterations: int)
    requires 0 < |X| <= |y|
    ensures var p, c, l := PgdOutput(o, X, y, epsilon, maxIterations), CwOutput(o, X, y, epsilon, maxIterations),
                           LbfgsOutput(o, X, y, epsilon, maxIterations);
            EnsembleOutput(o, X, y, epsilon, maxIterations)
            == if SumNll(o, p, y) >= SumNll(o, c, y) && SumNll(o, p, y) >= SumNll(o, l, y) then p
               else if SumNll(o, c, y) >= SumNll(o, l, y) then c else l
  {
    var cs := Candidates(o, X, y, epsilon, maxIterations);
    ClampingTwiceIsClampingOnce(o, X, y, epsilon, maxIterations);
    FirstStrongest(o, cs, y, |X|);
  }
}
