/**
 * The attacks of src/benchmark/attacks.py over exact reals.
 *
 * The network, its gradient, the random start and both optimisers are arbitrary
 * functions gathered in an `Oracle`; nothing below assumes anything about them.
 */
module Attacks {
  import opened Prelude

  type Image = seq<real>
  type Batch = seq<Image>
  type Labels = seq<int>

  /** The hard ceiling on epsilon (constants.py). */
  const MAX_EPSILON: real := 0.109

  /**
   * What one call of an attack calls but does not define.  Tensors produced by a gradient or
   * an optimiser are given coordinate by coordinate, so they always have X's shape.  An Adam
   * step may depend on every value its variable has had, and with that on all its moments, on
   * the input, the labels and the budget.
   */
  datatype Oracle = Oracle(
    nll: (Image, int) -> real,
    classify: Image -> int,
    gradient: (Batch, Labels, nat, nat) -> real,
    noise: (Batch, nat, nat) -> real,
    tanh: real -> real,
    adam: (seq<Batch>, Batch, Labels, real, nat, nat) -> real,
    lbfgs: (Batch, Labels, int, nat, nat) -> real,
    runtimeMs: string -> nat)

  // ------------------------------------------------------------------ shapes

  ghost predicate SameShape(a: Batch, b: Batch) {
    |a| == |b| && forall i | 0 <= i < |a| :: |a[i]| == |b[i]|
  }

  /** Every pixel is in [0, 1]. */
  ghost predicate InBox(x: Batch) {
    forall i, j | 0 <= i < |x| && 0 <= j < |x[i]| :: 0.0 <= x[i][j] <= 1.0
  }

  /** No coordinate of `x` is further than `radius` from the same coordinate of `origin`. */
  ghost predicate InBall(x: Batch, origin: Batch, radius: real) {
    SameShape(x, origin) &&
    forall i, j | 0 <= i < |x| && 0 <= j < |x[i]| :: Abs(x[i][j] - origin[i][j]) <= radius
  }

  function Build(shape: Batch, f: (nat, nat) -> real): (r: Batch)
    ensures SameShape(r, shape)
    ensures forall i, j | 0 <= i < |shape| && 0 <= j < |shape[i]| :: r[i][j] == f(i, j)
  {
    seq(|shape|, i requires 0 <= i < |shape| => seq(|shape[i]|, j requires 0 <= j < |shape[i]| => f(i, j)))
  }

  // -------------------------------------------------------------- projection

  function Clamp(x: real, lo: real, hi: real): real {
    Min(Max(x, lo), hi)
  }

  /** One coordinate of `_clip`. */
  function Clip(x: real, origin: real, epsilon: real): real {
    Clamp(origin + Clamp(x - origin, -epsilon, epsilon), 0.0, 1.0)
  }

  /** `p` is a value an attack may return for a pixel whose original value is `origin`. */
  predicate Feasible(p: real, origin: real, epsilon: real) {
    0.0 <= p <= 1.0 && Abs(p - origin) <= epsilon
  }

  /** `_clip` is the metric projection: feasible, and strictly nearer to `x` than any other feasible value. */
  lemma ClipIsProjection(x: real, origin: real, epsilon: real, p: real)
    requires 0.0 <= origin <= 1.0 && 0.0 <= epsilon
    ensures Feasible(Clip(x, origin, epsilon), origin, epsilon)
    ensures Feasible(p, origin, epsilon) && p != Clip(x, origin, epsilon)
            ==> Abs(Clip(x, origin, epsilon) - x) < Abs(p - x)
  {
  }

  function ClipBatch(x: Batch, origin: Batch, epsilon: real): (r: Batch)
    requires SameShape(x, origin)
    ensures SameShape(r, origin)
    ensures forall i, j | 0 <= i < |r| && 0 <= j < |r[i]| :: r[i][j] == Clip(x[i][j], origin[i][j], epsilon)
  {
    seq(|origin|, i requires 0 <= i < |origin| =>
      seq(|origin[i]|, j requires 0 <= j < |origin[i]| => Clip(x[i][j], origin[i][j], epsilon)))
  }

  lemma ClipBatchIsFeasible(x: Batch, origin: Batch, epsilon: real)
    requires SameShape(x, origin) && InBox(origin) && 0.0 <= epsilon
    ensures InBox(ClipBatch(x, origin, epsilon))
    ensures InBall(ClipBatch(x, origin, epsilon), origin, epsilon)
  {
    var r := ClipBatch(x, origin, epsilon);
    forall i, j | 0 <= i < |r| && 0 <= j < |r[i]|
      ensures 0.0 <= r[i][j] <= 1.0 && Abs(r[i][j] - origin[i][j]) <= epsilon
    {
      assert 0.0 <= origin[i][j] <= 1.0;
      ClipIsProjection(x[i][j], origin[i][j], epsilon, r[i][j]);
    }
  }

  function SafeEpsilon(epsilon: real): real {
    Min(epsilon, MAX_EPSILON)
  }

  function Sign(g: real): real {
    if g > 0.0 then 1.0 else if g < 0.0 then -1.0 else 0.0
  }

  // -------------------------------------------------------------------- FGSM

  /** `x + size * sign(gradient at x)`, before the projection. */
  function SignStep(o: Oracle, x: Batch, X: Batch, y: Labels, size: real): (r: Batch)
    requires SameShape(x, X)
    ensures SameShape(r, X)
    ensures forall i, j | 0 <= i < |r| && 0 <= j < |r[i]| :: r[i][j] == x[i][j] + size * Sign(o.gradient(x, y, i, j))
  {
    seq(|x|, i requires 0 <= i < |x| =>
      seq(|x[i]|, j requires 0 <= j < |x[i]| => x[i][j] + size * Sign(o.gradient(x, y, i, j))))
  }

  function Fgsm(o: Oracle, X: Batch, y: Labels, epsilon: real): (r: Batch)
    ensures SameShape(r, X)
  {
    var e := SafeEpsilon(epsilon);
    ClipBatch(SignStep(o, X, X, y, e), X, e)
  }

  // --------------------------------------------------------------------- PGD

  function Steps(maxIterations: int): (n: nat)
    ensures n >= 1
  {
    if maxIterations >= 1 then maxIterations else 1
  }

  function PgdAlpha(e: real, steps: nat): real
    requires steps >= 1
  {
    2.5 * e / steps as real
  }

  /** The random start: X plus a draw, projected. */
  function PgdStart(o: Oracle, X: Batch, e: real): (r: Batch)
    ensures SameShape(r, X)
  {
    ClipBatch(Build(X, (i: nat, j: nat) =>
      if i < |X| && j < |X[i]| then X[i][j] + o.noise(X, i, j) else 0.0), X, e)
  }

  /** A signed step of size `alpha` from `x`, projected back into the ball around X. */
  function PgdStep(o: Oracle, x: Batch, X: Batch, y: Labels, e: real, alpha: real): (r: Batch)
    requires SameShape(x, X)
    ensures SameShape(r, X)
  {
    ClipBatch(SignStep(o, x, X, y, alpha), X, e)
  }

  /** The iterate after `k` steps of size `alpha`, at radius `e`. */
  function PgdIterate(o: Oracle, X: Batch, y: Labels, e: real, alpha: real, k: nat): (r: Batch)
    ensures SameShape(r, X)
  {
    if k == 0 then PgdStart(o, X, e) else PgdStep(o, PgdIterate(o, X, y, e, alpha, k - 1), X, y, e, alpha)
  }

  function PgdOutput(o: Oracle, X: Batch, y: Labels, epsilon: real, maxIterations: int): (r: Batch)
    ensures SameShape(r, X)
  {
    var e, n := SafeEpsilon(epsilon), Steps(maxIterations);
    PgdIterate(o, X, y, e, PgdAlpha(e, n), n)
  }

  method Pgd(o: Oracle, X: Batch, y: Labels, epsilon: real, maxIterations: int) returns (xAdv: Batch)
    ensures xAdv == PgdOutput(o, X, y, epsilon, maxIterations)
  {
    var e, steps := SafeEpsilon(epsilon), Steps(maxIterations);
    var alpha := PgdAlpha(e, steps);
    xAdv := PgdStart(o, X, e);
    for step := 0 to steps
      invariant xAdv == PgdIterate(o, X, y, e, alpha, step)
    {
      xAdv := PgdStep(o, xAdv, X, y, e, alpha);
    }
  }

  /** Every iterate, not only the last, is a valid image inside the ball. */
  lemma PgdIterateIsFeasible(o: Oracle, X: Batch, y: Labels, e: real, alpha: real, k: nat)
    requires InBox(X) && 0.0 <= e
    ensures InBox(PgdIterate(o, X, y, e, alpha, k))
    ensures InBall(PgdIterate(o, X, y, e, alpha, k), X, e)
  {
    if k == 0 {
      ClipBatchIsFeasible(Build(X, (i: nat, j: nat) =>
        if i < |X| && j < |X[i]| then X[i][j] + o.noise(X, i, j) else 0.0), X, e);
    } else {
      ClipBatchIsFeasible(SignStep(o, PgdIterate(o, X, y, e, alpha, k - 1), X, y, alpha), X, e);
    }
  }

  /** Coordinate (i, j) sees gradient sign `s` at the first `n` iterates. */
  ghost predicate ConstantSign(o: Oracle, X: Batch, y: Labels, e: real, alpha: real, n: nat, i: nat, j: nat, s: real) {
    forall k: nat | k < n :: Sign(o.gradient(PgdIterate(o, X, y, e, alpha, k), y, i, j)) == s
  }

  /** The far edge of the feasible interval in direction `s`. */
  function Edge(origin: real, e: real, s: real): real {
    if s > 0.0 then Min(1.0, origin + e) else Max(0.0, origin - e)
  }

  /** `amount` further in direction `s`. */
  function Towards(x: real, s: real, amount: real): real {
    if s > 0.0 then x + amount else x - amount
  }

  /** How far `x` lies beyond `x0` in direction `s`. */
  function Travelled(x0: real, x: real, s: real): real {
    if s > 0.0 then x - x0 else x0 - x
  }

  /** One projected step towards an edge either arrives there or makes the whole step. */
  lemma ClipTowardsEdge(x: real, origin: real, e: real, alpha: real, s: real)
    requires 0.0 <= origin <= 1.0 && 0.0 <= alpha && Feasible(x, origin, e)
    ensures var r := Clip(Towards(x, s, alpha), origin, e);
            r == Edge(origin, e, s) || (x != Edge(origin, e, s) && r == Towards(x, s, alpha))
  {
  }

  /** One coordinate of a signed, projected step. */
  lemma StepOnCoordinate(
    o: Oracle, x: Batch, X: Batch, y: Labels, e: real, size: real, i: nat, j: nat, s: real)
    requires SameShape(x, X) && i < |X| && j < |X[i]| && (s == 1.0 || s == -1.0) && Sign(o.gradient(x, y, i, j)) == s
    ensures PgdStep(o, x, X, y, e, size)[i][j] == Clip(Towards(x[i][j], s, size), X[i][j], e)
  {
    assert SignStep(o, x, X, y, size)[i][j] == Towards(x[i][j], s, size);
  }

  lemma IterateIsFeasibleAt(o: Oracle, X: Batch, y: Labels, e: real, alpha: real, k: nat, i: nat, j: nat)
    requires InBox(X) && 0.0 <= e && i < |X| && j < |X[i]|
    ensures Feasible(PgdIterate(o, X, y, e, alpha, k)[i][j], X[i][j], e) && 0.0 <= X[i][j] <= 1.0
  {
    PgdIterateIsFeasible(o, X, y, e, alpha, k);
  }

  /** What one PGD step does to one coordinate whose gradient sign is `s`. */
  lemma PgdStepOnCoordinate(
    o: Oracle, X: Batch, y: Labels, e: real, alpha: real, i: nat, j: nat, s: real, k: nat)
    requires InBox(X) && 0.0 <= e && 0.0 <= alpha && i < |X| && j < |X[i]| && (s == 1.0 || s == -1.0)
    requires k > 0 && Sign(o.gradient(PgdIterate(o, X, y, e, alpha, k - 1), y, i, j)) == s
    ensures var before, after := PgdIterate(o, X, y, e, alpha, k - 1)[i][j], PgdIterate(o, X, y, e, alpha, k)[i][j];
            after == Edge(X[i][j], e, s) || (before != Edge(X[i][j], e, s) && after == Towards(before, s, alpha))
  {
    var before := PgdIterate(o, X, y, e, alpha, k - 1);
    StepOnCoordinate(o, before, X, y, e, alpha, i, j, s);
    IterateIsFeasibleAt(o, X, y, e, alpha, k - 1, i, j);
    ClipTowardsEdge(before[i][j], X[i][j], e, alpha, s);
  }

  /** `k` steps of size `alpha`, added up. */
  function Repeated(k: nat, alpha: real): real {
    if k == 0 then 0.0 else Repeated(k - 1, alpha) + alpha
  }

  /** How far a coordinate has come after `k` steps: at least `k * alpha` from its start, or at the edge. */
  lemma {:induction false} PgdAdvances(
    o: Oracle, X: Batch, y: Labels, e: real, alpha: real, i: nat, j: nat, s: real, k: nat)
    requires InBox(X) && 0.0 <= e && 0.0 <= alpha && i < |X| && j < |X[i]| && (s == 1.0 || s == -1.0)
    requires ConstantSign(o, X, y, e, alpha, k, i, j, s)
    ensures var x0, x := PgdIterate(o, X, y, e, alpha, 0)[i][j], PgdIterate(o, X, y, e, alpha, k)[i][j];
            x == Edge(X[i][j], e, s) || Travelled(x0, x, s) >= Repeated(k, alpha)
  {
    if k > 0 {
      PgdAdvances(o, X, y, e, alpha, i, j, s, k - 1);
      PgdStepOnCoordinate(o, X, y, e, alpha, i, j, s, k);
    }
  }

  lemma {:induction false} RepeatedIsProduct(k: nat, alpha: real)
    ensures Repeated(k, alpha) == k as real * alpha
  {
    if k > 0 {
      RepeatedIsProduct(k - 1, alpha);
      var before := (k - 1) as real;
      assert k as real == before + 1.0;
      assert (before + 1.0) * alpha == before * alpha + alpha;
    }
  }

  /** alpha * steps = 2.5 epsilon, whatever the number of steps. */
  lemma AlphaCoversTheBall(e: real, n: nat)
    requires n >= 1 && 0.0 <= e
    ensures Repeated(n, PgdAlpha(e, n)) == 2.5 * e && PgdAlpha(e, n) >= 0.0
  {
    RepeatedIsProduct(n, PgdAlpha(e, n));
  }

  /** Two feasible points are never 2.5e apart. */
  lemma FeasiblePointsAreClose(x0: real, x: real, origin: real, e: real, s: real)
    requires 0.0 <= origin <= 1.0 && 0.0 < e && Feasible(x0, origin, e) && Feasible(x, origin, e)
    ensures Travelled(x0, x, s) < 2.5 * e
  {
  }

  lemma PgdReachesTheEdge(
    o: Oracle, X: Batch, y: Labels, e: real, alpha: real, n: nat, i: nat, j: nat, s: real)
    requires InBox(X) && 0.0 < e && 0.0 <= alpha && Repeated(n, alpha) == 2.5 * e
    requires i < |X| && j < |X[i]| && (s == 1.0 || s == -1.0) && ConstantSign(o, X, y, e, alpha, n, i, j, s)
    ensures PgdIterate(o, X, y, e, alpha, n)[i][j] == Edge(X[i][j], e, s)
  {
    PgdAdvances(o, X, y, e, alpha, i, j, s, n);
    IterateIsFeasibleAt(o, X, y, e, alpha, 0, i, j);
    IterateIsFeasibleAt(o, X, y, e, alpha, n, i, j);
    FeasiblePointsAreClose(
      PgdIterate(o, X, y, e, alpha, 0)[i][j], PgdIterate(o, X, y, e, alpha, n)[i][j], X[i][j], e, s);
  }

  /**
   * The step size lets PGD cross the ball whatever the iteration count: a coordinate
   * whose gradient keeps one sign ends exactly on the edge in that direction, from any start.
   */
  lemma PgdEndsAtTheEdge(
    o: Oracle, X: Batch, y: Labels, epsilon: real, maxIterations: int, i: nat, j: nat, s: real)
    requires InBox(X) && 0.0 < epsilon && i < |X| && j < |X[i]| && (s == 1.0 || s == -1.0)
    requires var e, n := SafeEpsilon(epsilon), Steps(maxIterations);
             ConstantSign(o, X, y, e, PgdAlpha(e, n), n, i, j, s)
    ensures PgdOutput(o, X, y, epsilon, maxIterations)[i][j] == Edge(X[i][j], SafeEpsilon(epsilon), s)
  {
    var e, n := SafeEpsilon(epsilon), Steps(maxIterations);
    AlphaCoversTheBall(e, n);
    PgdReachesTheEdge(o, X, y, e, PgdAlpha(e, n), n, i, j, s);
  }

  /** One step of size epsilon from the image itself lands on the edge at once. */
  lemma FgsmReachesTheEdge(o: Oracle, X: Batch, y: Labels, epsilon: real, i: nat, j: nat, s: real)
    requires InBox(X) && 0.0 < epsilon && i < |X| && j < |X[i]| && (s == 1.0 || s == -1.0)
    requires Sign(o.gradient(X, y, i, j)) == s
    ensures Fgsm(o, X, y, epsilon)[i][j] == Edge(X[i][j], SafeEpsilon(epsilon), s)
  {
    var e := SafeEpsilon(epsilon);
    StepOnCoordinate(o, X, X, y, e, e, i, j, s);
    assert 0.0 <= X[i][j] <= 1.0;
    assert Clip(Towards(X[i][j], s, e), X[i][j], e) == Edge(X[i][j], e, s);
  }

  lemma EqualByCoordinates(a: Batch, b: Batch)
    requires SameShape(a, b) && forall i, j | 0 <= i < |a| && 0 <= j < |a[i]| :: a[i][j] == b[i][j]
    ensures a == b
  {
    forall i | 0 <= i < |a| ensures a[i] == b[i] {
    }
  }

  lemma FgsmOnAFlatCoordinate(o: Oracle, X: Batch, y: Labels, epsilon: real, i: nat, j: nat)
    requires InBox(X) && 0.0 < epsilon && i < |X| && j < |X[i]| && o.gradient(X, y, i, j) == 0.0
    ensures Fgsm(o, X, y, epsilon)[i][j] == X[i][j]
  {
    var e := SafeEpsilon(epsilon);
    assert SignStep(o, X, X, y, e)[i][j] == X[i][j];
    assert 0.0 <= X[i][j] <= 1.0;
  }

  /** FGSM climbs the loss: each coordinate goes to the far end of its interval on the side of its gradient. */
  lemma FgsmFollowsTheGradient(o: Oracle, X: Batch, y: Labels, epsilon: real, i: nat, j: nat)
    requires InBox(X) && 0.0 < epsilon && i < |X| && j < |X[i]|
    ensures var e, g := if epsilon <= 0.109 then epsilon else 0.109, o.gradient(X, y, i, j);
            Fgsm(o, X, y, epsilon)[i][j]
            == if g > 0.0 then Min(1.0, X[i][j] + e) else if g < 0.0 then Max(0.0, X[i][j] - e) else X[i][j]
  {
    if o.gradient(X, y, i, j) == 0.0 {
      FgsmOnAFlatCoordinate(o, X, y, epsilon, i, j);
    } else {
      FgsmReachesTheEdge(o, X, y, epsilon, i, j, if o.gradient(X, y, i, j) > 0.0 then 1.0 else -1.0);
    }
  }

  /** The gradient at iterate `k`, at coordinate (i, j). */
  ghost function GradientAt(o: Oracle, X: Batch, y: Labels, e: real, alpha: real, k: nat, i: nat, j: nat): real {
    o.gradient(PgdIterate(o, X, y, e, alpha, k), y, i, j)
  }


  /** The gradient of coordinate (i, j) is positive at each of the first `n` iterates. */
  ghost predicate Uphill(o: Oracle, X: Batch, y: Labels, e: real, alpha: real, n: nat, i: nat, j: nat) {
    forall k: nat | k < n :: GradientAt(o, X, y, e, alpha, k, i, j) > 0.0
  }

  /** The gradient of coordinate (i, j) is negative at each of the first `n` iterates. */
  ghost predicate Downhill(o: Oracle, X: Batch, y: Labels, e: real, alpha: real, n: nat, i: nat, j: nat) {
    forall k: nat | k < n :: GradientAt(o, X, y, e, alpha, k, i, j) < 0.0
  }

  /** The gradient of coordinate (i, j) is zero at each of the first `n` iterates. */
  ghost predicate Flat(o: Oracle, X: Batch, y: Labels, e: real, alpha: real, n: nat, i: nat, j: nat) {
    forall k: nat | k < n :: GradientAt(o, X, y, e, alpha, k, i, j) == 0.0
  }
  lemma StillOnCoordinate(o: Oracle, x: Batch, X: Batch, y: Labels, e: real, size: real, i: nat, j: nat)
    requires SameShape(x, X) && i < |X| && j < |X[i]| && o.gradient(x, y, i, j) == 0.0
    requires Feasible(x[i][j], X[i][j], e)
    ensures PgdStep(o, x, X, y, e, size)[i][j] == x[i][j]
  {
    assert SignStep(o, x, X, y, size)[i][j] == x[i][j];
  }

  /** A coordinate without gradient stays where it started. */
  lemma {:induction false} PgdStandsStill(
    o: Oracle, X: Batch, y: Labels, e: real, alpha: real, k: nat, i: nat, j: nat)
    requires InBox(X) && 0.0 <= e && i < |X| && j < |X[i]|
    requires Flat(o, X, y, e, alpha, k, i, j)
    ensures PgdIterate(o, X, y, e, alpha, k)[i][j] == PgdIterate(o, X, y, e, alpha, 0)[i][j]
  {
    if k > 0 {
      PgdStandsStill(o, X, y, e, alpha, k - 1, i, j);
      assert GradientAt(o, X, y, e, alpha, k - 1, i, j) == 0.0;
      IterateIsFeasibleAt(o, X, y, e, alpha, k - 1, i, j);
      StillOnCoordinate(o, PgdIterate(o, X, y, e, alpha, k - 1), X, y, e, alpha, i, j);
    }
  }

  lemma SameSignThroughout(
    o: Oracle, X: Batch, y: Labels, e: real, alpha: real, n: nat, i: nat, j: nat, s: real)
    requires s == 1.0 || s == -1.0
    requires forall k: nat | k < n ::
      if s == 1.0 then GradientAt(o, X, y, e, alpha, k, i, j) > 0.0 else GradientAt(o, X, y, e, alpha, k, i, j) < 0.0
    ensures ConstantSign(o, X, y, e, alpha, n, i, j, s)
  {
    forall k: nat | k < n ensures Sign(o.gradient(PgdIterate(o, X, y, e, alpha, k), y, i, j)) == s {
      assert if s == 1.0 then GradientAt(o, X, y, e, alpha, k, i, j) > 0.0
             else GradientAt(o, X, y, e, alpha, k, i, j) < 0.0;
    }
  }

  lemma PgdEndsOnTop(o: Oracle, X: Batch, y: Labels, epsilon: real, maxIterations: int, i: nat, j: nat)
    requires InBox(X) && 0.0 < epsilon && i < |X| && j < |X[i]|
    requires var e, n := SafeEpsilon(epsilon), Steps(maxIterations);
             Uphill(o, X, y, e, PgdAlpha(e, n), n, i, j)
    ensures PgdOutput(o, X, y, epsilon, maxIterations)[i][j] == Min(1.0, X[i][j] + SafeEpsilon(epsilon))
  {
    var e, n := SafeEpsilon(epsilon), Steps(maxIterations);
    SameSignThroughout(o, X, y, e, PgdAlpha(e, n), n, i, j, 1.0);
    PgdEndsAtTheEdge(o, X, y, epsilon, maxIterations, i, j, 1.0);
  }

  lemma PgdEndsAtTheBottom(o: Oracle, X: Batch, y: Labels, epsilon: real, maxIterations: int, i: nat, j: nat)
    requires InBox(X) && 0.0 < epsilon && i < |X| && j < |X[i]|
    requires var e, n := SafeEpsilon(epsilon), Steps(maxIterations);
             Downhill(o, X, y, e, PgdAlpha(e, n), n, i, j)
    ensures PgdOutput(o, X, y, epsilon, maxIterations)[i][j] == Max(0.0, X[i][j] - SafeEpsilon(epsilon))
  {
    var e, n := SafeEpsilon(epsilon), Steps(maxIterations);
    SameSignThroughout(o, X, y, e, PgdAlpha(e, n), n, i, j, -1.0);
    PgdEndsAtTheEdge(o, X, y, epsilon, maxIterations, i, j, -1.0);
  }

  /**
   * PGD climbs the loss and crosses the ball whatever the iteration count: a coordinate whose
   * gradient is positive (negative) at every iterate ends at the upper (lower) end of its
   * interval, from any start; one whose gradient is zero stays at its start.
   */
  lemma PgdTraversesTheBall(o: Oracle, X: Batch, y: Labels, epsilon: real, maxIterations: int, i: nat, j: nat)
    requires InBox(X) && 0.0 < epsilon && i < |X| && j < |X[i]|
    ensures var e, n := if epsilon <= 0.109 then epsilon else 0.109, if maxIterations >= 1 then maxIterations else 1;
            Uphill(o, X, y, e, 2.5 * e / n as real, n, i, j)
            ==> PgdOutput(o, X, y, epsilon, maxIterations)[i][j] == Min(1.0, X[i][j] + e)
    ensures var e, n := if epsilon <= 0.109 then epsilon else 0.109, if maxIterations >= 1 then maxIterations else 1;
            Downhill(o, X, y, e, 2.5 * e / n as real, n, i, j)
            ==> PgdOutput(o, X, y, epsilon, maxIterations)[i][j] == Max(0.0, X[i][j] - e)
    ensures var e, n := if epsilon <= 0.109 then epsilon else 0.109, if maxIterations >= 1 then maxIterations else 1;
            Flat(o, X, y, e, 2.5 * e / n as real, n, i, j)
            ==> PgdOutput(o, X, y, epsilon, maxIterations)[i][j] == PgdStart(o, X, e)[i][j]
  {
    var e, n := SafeEpsilon(epsilon), Steps(maxIterations);
    var alpha := PgdAlpha(e, n);
    if Uphill(o, X, y, e, alpha, n, i, j) {
      PgdEndsOnTop(o, X, y, epsilon, maxIterations, i, j);
    }
    if Downhill(o, X, y, e, alpha, n, i, j) {
      PgdEndsAtTheBottom(o, X, y, epsilon, maxIterations, i, j);
    }
    if Flat(o, X, y, e, alpha, n, i, j) {
      PgdStandsStill(o, X, y, e, alpha, n, i, j);
    }
  }

  /** The gradient of a coordinate is positive, or negative, at the input and at the first `n` iterates. */
  ghost predicate OneDirection(o: Oracle, X: Batch, y: Labels, e: real, alpha: real, n: nat, i: nat, j: nat) {
    (o.gradient(X, y, i, j) > 0.0 && Uphill(o, X, y, e, alpha, n, i, j))
    || (o.gradient(X, y, i, j) < 0.0 && Downhill(o, X, y, e, alpha, n, i, j))
  }

  /** When no gradient changes its sign or vanishes along the way, iterating gains nothing: PGD equals FGSM. */
  lemma PgdEqualsFgsm(o: Oracle, X: Batch, y: Labels, epsilon: real, maxIterations: int)
    requires InBox(X) && 0.0 < epsilon
    requires var e, n := SafeEpsilon(epsilon), Steps(maxIterations);
             forall i, j | 0 <= i < |X| && 0 <= j < |X[i]| :: OneDirection(o, X, y, e, PgdAlpha(e, n), n, i, j)
    ensures PgdOutput(o, X, y, epsilon, maxIterations) == Fgsm(o, X, y, epsilon)
  {
    var p, f, e, n := PgdOutput(o, X, y, epsilon, maxIterations), Fgsm(o, X, y, epsilon), SafeEpsilon(epsilon),
                      Steps(maxIterations);
    forall i, j | 0 <= i < |X| && 0 <= j < |X[i]| ensures p[i][j] == f[i][j] {
      assert OneDirection(o, X, y, e, PgdAlpha(e, n), n, i, j);
      PgdTraversesTheBall(o, X, y, epsilon, maxIterations, i, j);
      FgsmFollowsTheGradient(o, X, y, epsilon, i, j);
    }
    EqualByCoordinates(p, f);
  }

  // --------------------------------------------------------- Carlini-Wagner

  /** `0.5 * (tanh(w) + 1)`, projected: the image the optimiser's variable stands for. */
  function CwImage(o: Oracle, w: Batch, X: Batch, e: real): (r: Batch)
    requires SameShape(w, X)
    ensures SameShape(r, X)
  {
    ClipBatch(Build(w, (i: nat, j: nat) =>
      if i < |w| && j < |w[i]| then 0.5 * (o.tanh(w[i][j]) + 1.0) else 0.0), X, e)
  }

  /** One optimiser step; its loss is that of the projected image of the last variable. */
  function AdamStep(o: Oracle, ws: seq<Batch>, X: Batch, y: Labels, e: real): (r: seq<Batch>)
    requires forall n | 0 <= n < |ws| :: SameShape(ws[n], X)
    ensures |r| == |ws| + 1 && forall n | 0 <= n <= |ws| :: SameShape(r[n], X)
  {
    ws + [Build(X, (i: nat, j: nat) => o.adam(ws, X, y, e, i, j))]
  }

  /** The values of the optimiser's variable during the first `k` Adam steps from zero. */
  function CwHistory(o: Oracle, X: Batch, y: Labels, e: real, k: nat): (ws: seq<Batch>)
    ensures |ws| == k + 1 && forall n | 0 <= n <= k :: SameShape(ws[n], X)
  {
    if k == 0 then [Build(X, (i: nat, j: nat) => 0.0)] else AdamStep(o, CwHistory(o, X, y, e, k - 1), X, y, e)
  }

  function CwOutput(o: Oracle, X: Batch, y: Labels, epsilon: real, maxIterations: int): (r: Batch)
    ensures SameShape(r, X)
  {
    var e := SafeEpsilon(epsilon);
    CwImage(o, CwHistory(o, X, y, e, Steps(maxIterations))[Steps(maxIterations)], X, e)
  }

  method CarliniWagner(o: Oracle, X: Batch, y: Labels, epsilon: real, maxIterations: int) returns (xAdv: Batch)
    ensures xAdv == CwOutput(o, X, y, epsilon, maxIterations)
  {
    var e, steps := SafeEpsilon(epsilon), Steps(maxIterations);
    var ws := [Build(X, (i: nat, j: nat) => 0.0)];
    for step := 0 to steps
      invariant ws == CwHistory(o, X, y, e, step)
    {
      ws := AdamStep(o, ws, X, y, e);
    }
    xAdv := CwImage(o, ws[steps], X, e);
  }

  lemma CwImageIsFeasible(o: Oracle, w: Batch, X: Batch, e: real)
    requires SameShape(w, X) && InBox(X) && 0.0 <= e
    ensures InBox(CwImage(o, w, X, e)) && InBall(CwImage(o, w, X, e), X, e)
  {
    ClipBatchIsFeasible(Build(w, (i: nat, j: nat) =>
      if i < |w| && j < |w[i]| then 0.5 * (o.tanh(w[i][j]) + 1.0) else 0.0), X, e);
  }

  // ------------------------------------------------------------------ L-BFGS

  /** Whatever iterate the optimiser reached, converged or interrupted. */
  function LbfgsIterate(o: Oracle, X: Batch, y: Labels, n: int): (r: Batch)
    ensures SameShape(r, X)
  {
    Build(X, (i: nat, j: nat) => o.lbfgs(X, y, n, i, j))
  }

  /** ... projected. */
  function LbfgsOutput(o: Oracle, X: Batch, y: Labels, epsilon: real, maxIterations: int): (r: Batch)
    ensures SameShape(r, X)
  {
    ClipBatch(LbfgsIterate(o, X, y, Steps(maxIterations)), X, SafeEpsilon(epsilon))
  }

  // ---------------------------------------------------------------- ensemble

  /** The summed negative log-likelihood of a batch: `nll_loss(..., reduction="sum")`. */
  function SumNll(o: Oracle, x: Batch, y: Labels): real
    requires |x| <= |y|
  {
    if |x| == 0 then 0.0 else SumNll(o, x[..|x| - 1], y) + o.nll(x[|x| - 1], y[|x| - 1])
  }

  /** The default reduction: the mean over the batch. */
  function MeanNll(o: Oracle, x: Batch, y: Labels): real
    requires 0 < |x| <= |y|
  {
    SumNll(o, x, y) / |x| as real
  }

  function Candidates(o: Oracle, X: Batch, y: Labels, epsilon: real, maxIterations: int): (cs: seq<Batch>)
    ensures |cs| == 3 && forall c | c in cs :: SameShape(c, X)
  {
    var e := SafeEpsilon(epsilon);
    [PgdOutput(o, X, y, e, maxIterations), CwOutput(o, X, y, e, maxIterations), LbfgsOutput(o, X, y, e, maxIterations)]
  }

  /** The first index of the largest loss. */
  function FirstArgMax(losses: seq<real>): (m: nat)
    requires losses != []
    ensures m < |losses|
    ensures forall k | 0 <= k < |losses| :: losses[k] <= losses[m]
    ensures forall k | 0 <= k < m :: losses[k] < losses[m]
  {
    if |losses| == 1 then 0
    else
      var m := FirstArgMax(losses[..|losses| - 1]);
      if losses[|losses| - 1] > losses[m] then |losses| - 1 else m
  }

  /** The loss of each candidate on its batch. */
  function Losses(o: Oracle, cs: seq<Batch>, y: Labels): (ls: seq<real>)
    requires forall c | c in cs :: 0 < |c| <= |y|
    ensures |ls| == |cs| && forall k | 0 <= k < |cs| :: ls[k] == MeanNll(o, cs[k], y)
  {
    seq(|cs|, k requires 0 <= k < |cs| => MeanNll(o, cs[k], y))
  }

  /** The index of the candidate that hurts the model most; the earliest one on a tie. */
  function Strongest(o: Oracle, cs: seq<Batch>, y: Labels): (m: nat)
    requires cs != [] && forall c | c in cs :: 0 < |c| <= |y|
    ensures m < |cs|
  {
    FirstArgMax(Losses(o, cs, y))
  }

  function EnsembleOutput(o: Oracle, X: Batch, y: Labels, epsilon: real, maxIterations: int): (r: Batch)
    requires 0 < |X| <= |y|
    ensures SameShape(r, X)
  {
    var cs := Candidates(o, X, y, epsilon, maxIterations);
    cs[Strongest(o, cs, y)]
  }

  /** How the choice moves on when one more candidate is looked at. */
  lemma FirstArgMaxStep(losses: seq<real>, n: nat)
    requires 0 < n < |losses|
    ensures FirstArgMax(losses[..n + 1])
            == var m := FirstArgMax(losses[..n]); if losses[n] > losses[m] then n else m
  {
    assert losses[..n + 1][..n] == losses[..n];
  }

  /** The best-of loop; `None` plays the part of the initial `-inf`. */
  method KeepStrongest(o: Oracle, X: Batch, y: Labels, candidates: seq<Batch>) returns (best: Batch)
    requires candidates != [] && forall c | c in candidates :: 0 < |c| <= |y|
    ensures best == candidates[Strongest(o, candidates, y)]
  {
    ghost var losses := Losses(o, candidates, y);
    var bestLoss: Option<real>;
    best, bestLoss := X, None;
    for n := 0 to |candidates|
      invariant n == 0 ==> bestLoss == None
      invariant n > 0 ==>
        var m := FirstArgMax(losses[..n]); best == candidates[m] && bestLoss == Some(losses[m])
    {
      var loss := MeanNll(o, candidates[n], y);
      if n > 0 {
        FirstArgMaxStep(losses, n);
      }
      if bestLoss.None? || loss > bestLoss.value {
        best, bestLoss := candidates[n], Some(loss);
      }
    }
    assert losses[..|losses|] == losses;
  }

  method Ensemble(o: Oracle, X: Batch, y: Labels, epsilon: real, maxIterations: int) returns (best: Batch)
    requires 0 < |X| <= |y|
    ensures best == EnsembleOutput(o, X, y, epsilon, maxIterations)
  {
    var e := SafeEpsilon(epsilon);
    var first := Pgd(o, X, y, e, maxIterations);
    var second := CarliniWagner(o, X, y, e, maxIterations);
    var third := LbfgsOutput(o, X, y, e, maxIterations);
    best := KeepStrongest(o, X, y, [first, second, third]);
  }

  // ---------------------------------------------------------------- dispatch

  /** ATTACK_FUNCTIONS, by name. */
  datatype AttackName = FGSM | PGD | CW | LBFGS | ENSEMBLE

  function AttackOutput(o: Oracle, name: AttackName, X: Batch, y: Labels, epsilon: real, maxIterations: int): (r: Batch)
    requires 0 < |X| <= |y|
    ensures SameShape(r, X)
  {
    match name
    case FGSM => Fgsm(o, X, y, epsilon)
    case PGD => PgdOutput(o, X, y, epsilon, maxIterations)
    case CW => CwOutput(o, X, y, epsilon, maxIterations)
    case LBFGS => LbfgsOutput(o, X, y, epsilon, maxIterations)
    case ENSEMBLE => EnsembleOutput(o, X, y, epsilon, maxIterations)
  }

  method RunAttack(o: Oracle, name: AttackName, X: Batch, y: Labels, epsilon: real, maxIterations: int)
    returns (xAdv: Batch)
    requires 0 < |X| <= |y|
    ensures xAdv == AttackOutput(o, name, X, y, epsilon, maxIterations)
  {
    match name
    case FGSM => xAdv := Fgsm(o, X, y, epsilon);
    case PGD => xAdv := Pgd(o, X, y, epsilon, maxIterations);
    case CW => xAdv := CarliniWagner(o, X, y, epsilon, maxIterations);
    case LBFGS => xAdv := LbfgsOutput(o, X, y, epsilon, maxIterations);
    case ENSEMBLE => xAdv := Ensemble(o, X, y, epsilon, maxIterations);
  }

  function Member(m: nat): AttackName {
    if m == 0 then PGD else if m == 1 then CW else LBFGS
  }

  /** The members clamp the epsilon the ensemble has already clamped, to no effect. */
  lemma ClampingTwiceIsClampingOnce(o: Oracle, X: Batch, y: Labels, epsilon: real, maxIterations: int)
    ensures Candidates(o, X, y, epsilon, maxIterations)
            == [PgdOutput(o, X, y, epsilon, maxIterations), CwOutput(o, X, y, epsilon, maxIterations),
                LbfgsOutput(o, X, y, epsilon, maxIterations)]
  {
    var e := SafeEpsilon(epsilon);
    assert SafeEpsilon(e) == e;
    assert PgdOutput(o, X, y, e, maxIterations) == PgdOutput(o, X, y, epsilon, maxIterations);
    assert CwOutput(o, X, y, e, maxIterations) == CwOutput(o, X, y, epsilon, maxIterations);
    assert LbfgsOutput(o, X, y, e, maxIterations) == LbfgsOutput(o, X, y, epsilon, maxIterations);
  }

  /** The ensemble's candidates are its members' own outputs at the requested epsilon. */
  lemma CandidateIsMember(o: Oracle, X: Batch, y: Labels, epsilon: real, maxIterations: int, m: nat)
    requires 0 < |X| <= |y| && m < 3
    ensures Candidates(o, X, y, epsilon, maxIterations)[m]
            == AttackOutput(o, Member(m), X, y, epsilon, maxIterations)
  {
    ClampingTwiceIsClampingOnce(o, X, y, epsilon, maxIterations);
  }

  /** Whatever the oracles answer, every attack returns valid images inside the clamped ball. */
  lemma EveryAttackIsFeasible(o: Oracle, name: AttackName, X: Batch, y: Labels, epsilon: real, maxIterations: int)
    requires InBox(X) && 0 < |X| <= |y| && 0.0 < epsilon
    ensures var x := AttackOutput(o, name, X, y, epsilon, maxIterations);
            InBox(x) && InBall(x, X, SafeEpsilon(epsilon))
    decreases name == ENSEMBLE
  {
    var e := SafeEpsilon(epsilon);
    match name
    case FGSM => ClipBatchIsFeasible(SignStep(o, X, X, y, e), X, e);
    case PGD => PgdIterateIsFeasible(o, X, y, e, PgdAlpha(e, Steps(maxIterations)), Steps(maxIterations));
    case CW => CwImageIsFeasible(o, CwHistory(o, X, y, e, Steps(maxIterations))[Steps(maxIterations)], X, e);
    case LBFGS =>
      ClipBatchIsFeasible(LbfgsIterate(o, X, y, Steps(maxIterations)), X, e);
    case ENSEMBLE =>
      var m := Strongest(o, Candidates(o, X, y, epsilon, maxIterations), y);
      CandidateIsMember(o, X, y, epsilon, maxIterations, m);
      EveryAttackIsFeasible(o, Member(m), X, y, epsilon, maxIterations);
  }

  lemma DivideBySize(a: real, b: real, n: nat)
    requires n > 0 && a / n as real <= b / n as real
    ensures a <= b
  {
    assert a == (a / n as real) * n as real;
    assert b == (b / n as real) * n as real;
  }

  lemma StrongestDominates(o: Oracle, cs: seq<Batch>, y: Labels, size: nat, m: nat)
    requires m < |cs| && 0 < size <= |y| && forall c | c in cs :: |c| == size
    ensures SumNll(o, cs[m], y) <= SumNll(o, cs[Strongest(o, cs, y)], y)
  {
    var best := cs[Strongest(o, cs, y)];
    assert Losses(o, cs, y)[m] <= Losses(o, cs, y)[Strongest(o, cs, y)];
    DivideBySize(SumNll(o, cs[m], y), SumNll(o, best, y), size);
  }

  /** The ensemble's choice is at least as damaging, on its batch, as each member run alone at the requested epsilon. */
  lemma EnsembleDominatesOnABatch(
    o: Oracle, X: Batch, y: Labels, epsilon: real, maxIterations: int, member: AttackName)
    requires 0 < |X| <= |y| && member in {PGD, CW, LBFGS}
    ensures SumNll(o, AttackOutput(o, member, X, y, epsilon, maxIterations), y)
            <= SumNll(o, AttackOutput(o, ENSEMBLE, X, y, epsilon, maxIterations), y)
  {
    var cs := Candidates(o, X, y, epsilon, maxIterations);
    var m := if member == PGD then 0 else if member == CW then 1 else 2;
    CandidateIsMember(o, X, y, epsilon, maxIterations, m);
    assert AttackOutput(o, member, X, y, epsilon, maxIterations) == cs[m];
    assert AttackOutput(o, ENSEMBLE, X, y, epsilon, maxIterations) == cs[Strongest(o, cs, y)];
    StrongestDominates(o, cs, y, |X|, m);
  }
}
