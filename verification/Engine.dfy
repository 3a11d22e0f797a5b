/**
 * src/benchmark/engine.py: the evaluation loop over batches and the loop over attacks.
 *
 * A batch is evaluated sample by sample by the network, so the metrics are stated
 * over the flat sequence of evaluated samples; the loops work batch by batch.
 */
module Engine {
  import opened Prelude
  import opened Attacks

  /** Images are flattened to 28 * 28 features. */
  const INPUT_FEATURES: nat := 784

  datatype LabelledBatch = LabelledBatch(images: Batch, targets: Labels)

  datatype AttackResult = AttackResult(
    attackName: string, robustAccuracy: real, meanNll: real, perturbationNorm: real, runtimeMs: nat, samples: nat)

  datatype EngineError = UnknownAttack(name: string) | EmptyEvaluationSet | EpsilonConstraintViolation(name: string)

  ghost predicate ValidBatch(b: LabelledBatch) {
    0 < |b.images| == |b.targets| && InBox(b.images) && forall x | x in b.images :: |x| == INPUT_FEATURES
  }

  /** What the data loader yields: non-empty batches of labelled 784-pixel images in [0, 1]. */
  ghost predicate ValidLoader(loader: seq<LabelledBatch>) {
    forall n | 0 <= n < |loader| :: ValidBatch(loader[n])
  }

  /** ATTACK_FUNCTIONS: the five published names. */
  function GetAttack(name: string): Option<AttackName> {
    if name == "fgsm" then Some(FGSM)
    else if name == "pgd" then Some(PGD)
    else if name == "cw" then Some(CW)
    else if name == "lbfgs" then Some(LBFGS)
    else if name == "ensemble" then Some(ENSEMBLE)
    else None
  }

  lemma FiveNamesAreKnown(name: string)
    ensures GetAttack(name).Some? <==>
              name == "fgsm" || name == "pgd" || name == "cw" || name == "lbfgs" || name == "ensemble"
  {
  }

  // ------------------------------------------------------- per-sample metrics

  /** One sample after the attack: what the network sees, what it came from, and its class. */
  datatype Evaluated = Evaluated(adversarial: Image, image: Image, target: int)

  function NllTotal(o: Oracle, es: seq<Evaluated>): real {
    if es == [] then 0.0
    else NllTotal(o, es[..|es| - 1]) + o.nll(es[|es| - 1].adversarial, es[|es| - 1].target)
  }

  function CorrectCount(o: Oracle, es: seq<Evaluated>): (n: nat)
    ensures n <= |es|
  {
    if es == [] then 0
    else CorrectCount(o, es[..|es| - 1]) + (if o.classify(es[|es| - 1].adversarial) == es[|es| - 1].target then 1
        else 0)
  }

  /** The samples still classified as what they are. */
  ghost function CorrectSamples(o: Oracle, es: seq<Evaluated>): set<nat> {
    set n: nat | n < |es| && o.classify(es[n].adversarial) == es[n].target
  }

  lemma {:induction false} CorrectSamplesAreCounted(o: Oracle, es: seq<Evaluated>)
    ensures CorrectCount(o, es) == |set n: nat | n < |es| && o.classify(es[n].adversarial) == es[n].target|
  {
    if es == [] {
      assert CorrectSamples(o, es) == {};
    } else {
      var last := |es| - 1;
      CorrectSamplesAreCounted(o, es[..last]);
      var correct := if o.classify(es[last].adversarial) == es[last].target then {last} else {};
      assert CorrectSamples(o, es) == CorrectSamples(o, es[..last]) + correct;
    }
  }

  /** The loss of a set of samples is the sum of theirs. */
  lemma LossesAdd(o: Oracle, es: seq<Evaluated>, e: Evaluated)
    ensures NllTotal(o, []) == 0.0 && NllTotal(o, es + [e]) == NllTotal(o, es) + o.nll(e.adversarial, e.target)
  {
    assert (es + [e])[..|es|] == es;
  }

  /** The largest |a[j] - b[j]|, or 0 for empty images. */
  function Deviation(a: Image, b: Image): real
    requires |a| == |b|
  {
    if |a| == 0 then 0.0
    else Max(Deviation(a[..|a| - 1], b[..|b| - 1]), Abs(a[|a| - 1] - b[|b| - 1]))
  }

  ghost predicate WellShaped(es: seq<Evaluated>) {
    forall e | e in es :: |e.adversarial| == |e.image|
  }

  ghost function Worst(es: seq<Evaluated>): real
    requires WellShaped(es)
  {
    if es == [] then 0.0
    else Max(Worst(es[..|es| - 1]), Deviation(es[|es| - 1].adversarial, es[|es| - 1].image))
  }

  /** The four accumulators of the evaluation loop. */
  datatype Tally = Tally(correct: nat, total: nat, nllSum: real, maxPerturbation: real)

  /** What the accumulators should hold after a sequence of samples. */
  ghost function TallyOf(o: Oracle, es: seq<Evaluated>): Tally
    requires WellShaped(es)
  {
    Tally(CorrectCount(o, es), |es|, NllTotal(o, es), Worst(es))
  }

  function Combine(a: Tally, b: Tally): Tally {
    Tally(a.correct + b.correct, a.total + b.total, a.nllSum + b.nllSum, Max(a.maxPerturbation, b.maxPerturbation))
  }

  ghost function TallyOfOne(o: Oracle, e: Evaluated): Tally
    requires |e.adversarial| == |e.image|
  {
    Tally(if o.classify(e.adversarial) == e.target then 1 else 0, 1, o.nll(e.adversarial, e.target),
          Deviation(e.adversarial, e.image))
  }

  lemma TallyOfSnoc(o: Oracle, es: seq<Evaluated>, e: Evaluated)
    requires WellShaped(es) && |e.adversarial| == |e.image|
    ensures WellShaped(es + [e]) && TallyOf(o, es + [e]) == Combine(TallyOf(o, es), TallyOfOne(o, e))
  {
    assert (es + [e])[..|es|] == es;
  }

  lemma CombineIsAssociative(a: Tally, b: Tally, c: Tally)
    ensures Combine(Combine(a, b), c) == Combine(a, Combine(b, c))
  {
  }

  lemma {:induction false} DeviationIsTheMaximum(a: Image, b: Image)
    requires |a| == |b|
    ensures Deviation(a, b) >= 0.0
    ensures forall j | 0 <= j < |a| :: Abs(a[j] - b[j]) <= Deviation(a, b)
    ensures Deviation(a, b) > 0.0 ==> exists j :: 0 <= j < |a| && Abs(a[j] - b[j]) == Deviation(a, b)
  {
    if |a| > 0 {
      DeviationIsTheMaximum(a[..|a| - 1], b[..|b| - 1]);
      if Deviation(a, b) > 0.0 && Deviation(a, b) == Deviation(a[..|a| - 1], b[..|b| - 1]) {
        var j :| 0 <= j < |a| - 1 && Abs(a[..|a| - 1][j] - b[..|b| - 1][j]) == Deviation(a, b);
        assert Abs(a[j] - b[j]) == Deviation(a, b);
      }
    }
  }

  /** `Worst` is the global maximum of the coordinate-wise deviations. */
  lemma {:induction false} WorstIsTheMaximum(es: seq<Evaluated>)
    requires WellShaped(es)
    ensures Worst(es) >= 0.0
    ensures forall e, j | e in es && 0 <= j < |e.image| :: Abs(e.adversarial[j] - e.image[j]) <= Worst(es)
    ensures Worst(es) > 0.0 ==>
              exists e, j :: e in es && 0 <= j < |e.image| && Abs(e.adversarial[j] - e.image[j]) == Worst(es)
  {
    if es != [] {
      var last := es[|es| - 1];
      WorstIsTheMaximum(es[..|es| - 1]);
      DeviationIsTheMaximum(last.adversarial, last.image);
      assert es == es[..|es| - 1] + [last];
    }
  }

  lemma {:induction false} TallyOfConcat(o: Oracle, a: seq<Evaluated>, b: seq<Evaluated>)
    requires WellShaped(a) && WellShaped(b)
    ensures WellShaped(a + b) && TallyOf(o, a + b) == Combine(TallyOf(o, a), TallyOf(o, b))
  {
    if b == [] {
      assert a + b == a;
      WorstIsTheMaximum(a);
    } else {
      var init, last := b[..|b| - 1], b[|b| - 1];
      assert b == init + [last] && a + b == (a + init) + [last];
      TallyOfConcat(o, a, init);
      TallyOfSnoc(o, a + init, last);
      TallyOfSnoc(o, init, last);
      CombineIsAssociative(TallyOf(o, a), TallyOf(o, init), TallyOfOne(o, last));
    }
  }

  // ------------------------------------------------------ batches and samples

  function Flatten<T>(bs: seq<seq<T>>): seq<T> {
    if bs == [] then [] else Flatten(bs[..|bs| - 1]) + bs[|bs| - 1]
  }

  /** The accumulation loop run over already evaluated batches. */
  ghost function Accumulated(o: Oracle, bs: seq<seq<Evaluated>>): Tally
    requires forall b | b in bs :: WellShaped(b)
  {
    if bs == [] then Tally(0, 0, 0.0, 0.0)
    else Combine(Accumulated(o, bs[..|bs| - 1]), TallyOf(o, bs[|bs| - 1]))
  }

  lemma AccumulatedStep(o: Oracle, bs: seq<seq<Evaluated>>, n: nat)
    requires n < |bs| && forall b | b in bs :: WellShaped(b)
    ensures Accumulated(o, bs[..n + 1]) == Combine(Accumulated(o, bs[..n]), TallyOf(o, bs[n]))
  {
    assert bs[..n + 1][..n] == bs[..n];
  }

  /** Sum-then-divide does not see batch boundaries: only the sequence of samples matters. */
  lemma {:induction false} AccumulationIgnoresBatching(o: Oracle, bs: seq<seq<Evaluated>>)
    requires forall b | b in bs :: WellShaped(b)
    ensures WellShaped(Flatten(bs)) && Accumulated(o, bs) == TallyOf(o, Flatten(bs))
  {
    if bs != [] {
      AccumulationIgnoresBatching(o, bs[..|bs| - 1]);
      TallyOfConcat(o, Flatten(bs[..|bs| - 1]), bs[|bs| - 1]);
    }
  }

  lemma AnyTwoSplitsAgree(o: Oracle, bs: seq<seq<Evaluated>>, cs: seq<seq<Evaluated>>)
    requires (forall b | b in bs :: WellShaped(b)) && (forall c | c in cs :: WellShaped(c))
    requires Flatten(bs) == Flatten(cs)
    ensures Accumulated(o, bs) == Accumulated(o, cs)
  {
    AccumulationIgnoresBatching(o, bs);
    AccumulationIgnoresBatching(o, cs);
  }

  function Paired(adversarial: Batch, b: LabelledBatch): (es: seq<Evaluated>)
    requires |adversarial| == |b.images| == |b.targets|
    ensures |es| == |adversarial|
  {
    seq(|adversarial|, i requires 0 <= i < |adversarial| => Evaluated(adversarial[i], b.images[i], b.targets[i]))
  }

  /** The samples of one batch after the attack. */
  function EvaluatedBatch(o: Oracle, name: AttackName, b: LabelledBatch, epsilon: real, maxIterations: int):
    (es: seq<Evaluated>)
    requires ValidBatch(b)
    ensures |es| == |b.images| && WellShaped(es)
  {
    Paired(AttackOutput(o, name, b.images, b.targets, epsilon, maxIterations), b)
  }

  /** The calls of one attack, batch by batch: one network, but fresh draws and optimisers every time. */
  datatype Calls = Calls(network: Oracle, call: nat -> Oracle) {
    function At(n: nat): Oracle {
      call(n).(nll := network.nll, classify := network.classify)
    }
  }

  /** The attacks of one job, by position. */
  type Session = nat -> Calls

  /** The samples of the whole evaluation set after the attack. */
  ghost function EvaluatedSet(o: Calls, name: AttackName, loader: seq<LabelledBatch>, epsilon: real,
      maxIterations: int):
    (bs: seq<seq<Evaluated>>)
    requires ValidLoader(loader)
    ensures |bs| == |loader| && forall b | b in bs :: WellShaped(b)
    ensures forall n | 0 <= n < |loader| :: bs[n] == EvaluatedBatch(o.At(n), name, loader[n], epsilon, maxIterations)
  {
    seq(|loader|, n requires 0 <= n < |loader| => EvaluatedBatch(o.At(n), name, loader[n], epsilon, maxIterations))
  }

  // ----------------------------------------------- the batch-level statements

  /** `outputs.argmax(dim=1).eq(targets).sum()` */
  method CountCorrect(o: Oracle, adversarial: Batch, b: LabelledBatch) returns (n: nat)
    requires |adversarial| == |b.images| == |b.targets|
    ensures n == CorrectCount(o, Paired(adversarial, b))
  {
    var es := Paired(adversarial, b);
    n := 0;
    for i := 0 to |adversarial|
      invariant n == CorrectCount(o, es[..i])
    {
      assert es[..i + 1][..i] == es[..i];
      n := n + if o.classify(adversarial[i]) == b.targets[i] then 1 else 0;
    }
    assert es[..|es|] == es;
  }

  /** `(adversarial - images).abs().max()` */
  method BatchNorm(adversarial: Batch, b: LabelledBatch) returns (norm: real)
    requires SameShape(adversarial, b.images) && |b.images| == |b.targets|
    ensures norm == Worst(Paired(adversarial, b))
  {
    var es := Paired(adversarial, b);
    norm := 0.0;
    for i := 0 to |adversarial|
      invariant norm == Worst(es[..i])
    {
      assert es[..i + 1][..i] == es[..i];
      norm := Max(norm, Deviation(adversarial[i], b.images[i]));
    }
    assert es[..|es|] == es;
  }

  lemma {:induction false} SumNllIsNllTotal(o: Oracle, adversarial: Batch, b: LabelledBatch, k: nat)
    requires |adversarial| == |b.images| == |b.targets| && k <= |adversarial|
    ensures SumNll(o, adversarial[..k], b.targets) == NllTotal(o, Paired(adversarial, b)[..k])
  {
    if k > 0 {
      SumNllIsNllTotal(o, adversarial, b, k - 1);
      assert adversarial[..k][..k - 1] == adversarial[..k - 1];
      assert Paired(adversarial, b)[..k][..k - 1] == Paired(adversarial, b)[..k - 1];
    }
  }

  lemma PairedLoss(o: Oracle, x: Batch, b: LabelledBatch)
    requires |x| == |b.images| == |b.targets|
    ensures NllTotal(o, Paired(x, b)) == SumNll(o, x, b.targets)
  {
    SumNllIsNllTotal(o, x, b, |x|);
    assert x[..|x|] == x && Paired(x, b)[..|x|] == Paired(x, b);
  }

  lemma BatchLoss(o: Oracle, a: AttackName, b: LabelledBatch, epsilon: real, maxIterations: int)
    requires ValidBatch(b)
    ensures NllTotal(o, EvaluatedBatch(o, a, b, epsilon, maxIterations))
            == SumNll(o, AttackOutput(o, a, b.images, b.targets, epsilon, maxIterations), b.targets)
  {
    PairedLoss(o, AttackOutput(o, a, b.images, b.targets, epsilon, maxIterations), b);
  }

  /** The body of the evaluation loop: attack one batch and measure it. */
  method EvaluateBatch(o: Oracle, attack: AttackName, b: LabelledBatch, epsilon: real, maxIterations: int)
    returns (t: Tally)
    requires ValidBatch(b)
    ensures t == TallyOf(o, EvaluatedBatch(o, attack, b, epsilon, maxIterations))
  {
    var adversarial := RunAttack(o, attack, b.images, b.targets, epsilon, maxIterations);
    var nll := SumNll(o, adversarial, b.targets);
    var correct := CountCorrect(o, adversarial, b);
    var norm := BatchNorm(adversarial, b);
    BatchLoss(o, attack, b, epsilon, maxIterations);
    t := Tally(correct, |b.targets|, nll, norm);
  }

  // ------------------------------------------------------------ the two loops

  /** The report of one attack, from the per-sample tally. */
  function Report(name: string, t: Tally, runtimeMs: nat): AttackResult
    requires t.total > 0
  {
    AttackResult(name, t.correct as real / t.total as real, t.nllSum / t.total as real, t.maxPerturbation, runtimeMs,
        t.total)
  }

  function Summarise(name: string, t: Tally, runtimeMs: nat): Result<AttackResult, EngineError> {
    if t.total == 0 then Err(EmptyEvaluationSet) else Ok(Report(name, t, runtimeMs))
  }

  /** The metrics of a list of evaluated batches, read off the samples in them. */
  ghost function ReportOn(o: Oracle, name: string, bs: seq<seq<Evaluated>>): Result<AttackResult, EngineError>
    requires forall b | b in bs :: WellShaped(b)
  {
    AccumulationIgnoresBatching(o, bs);
    Summarise(name, TallyOf(o, Flatten(bs)), o.runtimeMs(name))
  }

  /** What `_evaluate_attack` must report: the per-sample metrics of the attacked evaluation set. */
  ghost function Evaluation(o: Calls, name: string, loader: seq<LabelledBatch>, epsilon: real, maxIterations: int):
    Result<AttackResult, EngineError>
    requires ValidLoader(loader)
  {
    match GetAttack(name)
    case None => Err(UnknownAttack(name))
    case Some(a) => ReportOn(o.network, name, EvaluatedSet(o, a, loader, epsilon, maxIterations))
  }

  /** No sample deviates by more than `norm` in any coordinate, and one attains it unless it is 0. */
  ghost predicate IsLargestDeviation(norm: real, es: seq<Evaluated>)
    requires WellShaped(es)
  {
    (forall e, j | e in es && 0 <= j < |e.image| :: Abs(e.adversarial[j] - e.image[j]) <= norm)
    && (norm > 0.0 ==> exists e, j :: e in es && 0 <= j < |e.image| && Abs(e.adversarial[j] - e.image[j]) == norm)
  }

  lemma WorstIsLargestDeviation(es: seq<Evaluated>)
    requires WellShaped(es)
    ensures IsLargestDeviation(Worst(es), es)
  {
    WorstIsTheMaximum(es);
  }

  /** The columns of a report are those of a tally: two means, a maximum and a count. */
  ghost predicate IsReportOf(r: AttackResult, t: Tally) {
    r.samples == t.total && r.robustAccuracy * r.samples as real == t.correct as real
    && r.meanNll * r.samples as real == t.nllSum && r.perturbationNorm == t.maxPerturbation
  }

  lemma MultiplyBack(a: real, n: nat)
    requires n > 0
    ensures a / n as real * n as real == a
  {
  }

  lemma ReportedMeans(name: string, t: Tally, runtimeMs: nat)
    requires t.total > 0
    ensures IsReportOf(Report(name, t, runtimeMs), t)
  {
    MultiplyBack(t.correct as real, t.total);
    MultiplyBack(t.nllSum, t.total);
  }

  /** How many samples there are, what fraction of them is classified correctly, and their mean loss. */
  ghost predicate Measures(r: AttackResult, o: Oracle, es: seq<Evaluated>) {
    r.samples == |es|
    && r.robustAccuracy * r.samples as real
       == |set n: nat | n < |es| && o.classify(es[n].adversarial) == es[n].target| as real
    && r.meanNll * r.samples as real == NllTotal(o, es)
  }

  lemma TallyMeasures(o: Oracle, es: seq<Evaluated>, r: AttackResult, t: Tally)
    requires IsReportOf(r, t) && t.total == |es| && t.correct == CorrectCount(o, es) && t.nllSum == NllTotal(o, es)
    ensures Measures(r, o, es)
  {
    CorrectSamplesAreCounted(o, es);
  }

  /** The report means what its columns say; there is none exactly when there are no samples. */
  lemma MetricsArePerSample(o: Oracle, name: string, bs: seq<seq<Evaluated>>)
    requires forall b | b in bs :: WellShaped(b)
    ensures WellShaped(Flatten(bs)) && (ReportOn(o, name, bs).Err? <==> Flatten(bs) == [])
    ensures ReportOn(o, name, bs).Ok? ==>
              ReportOn(o, name, bs).value.attackName == name
              && ReportOn(o, name, bs).value.runtimeMs == o.runtimeMs(name)
              && Measures(ReportOn(o, name, bs).value, o, Flatten(bs))
              && IsLargestDeviation(ReportOn(o, name, bs).value.perturbationNorm, Flatten(bs))
  {
    AccumulationIgnoresBatching(o, bs);
    if Flatten(bs) != [] {
      var t := TallyOf(o, Flatten(bs));
      ReportedMeans(name, t, o.runtimeMs(name));
      TallyMeasures(o, Flatten(bs), Report(name, t, o.runtimeMs(name)), t);
      WorstIsLargestDeviation(Flatten(bs));
    }
  }

  /** Two oracles with one network measure alike. */
  lemma {:induction false} TallyReadsTheNetwork(a: Oracle, b: Oracle, es: seq<Evaluated>)
    requires a.nll == b.nll && a.classify == b.classify && WellShaped(es)
    ensures TallyOf(a, es) == TallyOf(b, es)
  {
    if es != [] {
      TallyReadsTheNetwork(a, b, es[..|es| - 1]);
    }
  }

  /** The accumulation loop. */
  method TallyBatches(
    o: Calls, loader: seq<LabelledBatch>, attack: AttackName, epsilon: real, maxIterations: int,
    ghost bs: seq<seq<Evaluated>>)
    returns (t: Tally)
    requires ValidLoader(loader) && |bs| == |loader| && forall b | b in bs :: WellShaped(b)
    requires forall n | 0 <= n < |bs| :: bs[n] == EvaluatedBatch(o.At(n), attack, loader[n], epsilon, maxIterations)
    ensures t == Accumulated(o.network, bs)
  {
    t := Tally(0, 0, 0.0, 0.0);
    for n := 0 to |loader|
      invariant t == Accumulated(o.network, bs[..n])
    {
      AccumulatedStep(o.network, bs, n);
      var batch := EvaluateBatch(o.At(n), attack, loader[n], epsilon, maxIterations);
      TallyReadsTheNetwork(o.At(n), o.network, bs[n]);
      t := Combine(t, batch);
    }
    assert bs[..|loader|] == bs;
  }

  /** `outputs[n]` can have been made of batch n. */
  ghost predicate Fits(output: Batch, b: LabelledBatch) {
    SameShape(output, b.images) && |b.images| == |b.targets|
  }

  lemma PairedIsWellShaped(output: Batch, b: LabelledBatch)
    requires Fits(output, b)
    ensures WellShaped(Paired(output, b))
  {
  }

  /** The samples of the whole set, when batch n has been turned into `outputs[n]`. */
  ghost function PairedBatches(outputs: seq<Batch>, loader: seq<LabelledBatch>): (bs: seq<seq<Evaluated>>)
    requires |outputs| == |loader| && forall n: nat | n < |loader| :: Fits(outputs[n], loader[n])
    ensures |bs| == |loader| && forall n | 0 <= n < |bs| :: WellShaped(bs[n])
    ensures forall n: nat | n < |loader| :: Fits(outputs[n], loader[n]) && bs[n] == Paired(outputs[n], loader[n])
  {
    seq(|loader|, n requires 0 <= n < |loader| && Fits(outputs[n], loader[n]) =>
      PairedIsWellShaped(outputs[n], loader[n]);
      Paired(outputs[n], loader[n]))
  }

  ghost function FgsmSamples(o: Calls, loader: seq<LabelledBatch>, epsilon: real, maxIterations: int):
    (bs: seq<seq<Evaluated>>)
    requires ValidLoader(loader)
    ensures |bs| == |loader| && forall n | 0 <= n < |bs| :: WellShaped(bs[n])
    ensures forall n: nat | n < |loader| ::
      bs[n] == Paired(Fgsm(o.At(n), loader[n].images, loader[n].targets, epsilon), loader[n])
  {
    var outputs := seq(|loader|, n requires 0 <= n < |loader| =>
      Fgsm(o.At(n), loader[n].images, loader[n].targets, epsilon));
    PairedBatches(outputs, loader)
  }

  ghost function PgdSamples(o: Calls, loader: seq<LabelledBatch>, epsilon: real, maxIterations: int):
    (bs: seq<seq<Evaluated>>)
    requires ValidLoader(loader)
    ensures |bs| == |loader| && forall n | 0 <= n < |bs| :: WellShaped(bs[n])
    ensures forall n: nat | n < |loader| ::
      bs[n] == Paired(PgdOutput(o.At(n), loader[n].images, loader[n].targets, epsilon, maxIterations), loader[n])
  {
    var outputs := seq(|loader|, n requires 0 <= n < |loader| =>
      PgdOutput(o.At(n), loader[n].images, loader[n].targets, epsilon, maxIterations));
    PairedBatches(outputs, loader)
  }

  ghost function CwSamples(o: Calls, loader: seq<LabelledBatch>, epsilon: real, maxIterations: int):
    (bs: seq<seq<Evaluated>>)
    requires ValidLoader(loader)
    ensures |bs| == |loader| && forall n | 0 <= n < |bs| :: WellShaped(bs[n])
    ensures forall n: nat | n < |loader| ::
      bs[n] == Paired(CwOutput(o.At(n), loader[n].images, loader[n].targets, epsilon, maxIterations), loader[n])
  {
    var outputs := seq(|loader|, n requires 0 <= n < |loader| =>
      CwOutput(o.At(n), loader[n].images, loader[n].targets, epsilon, maxIterations));
    PairedBatches(outputs, loader)
  }

  ghost function LbfgsSamples(o: Calls, loader: seq<LabelledBatch>, epsilon: real, maxIterations: int):
    (bs: seq<seq<Evaluated>>)
    requires ValidLoader(loader)
    ensures |bs| == |loader| && forall n | 0 <= n < |bs| :: WellShaped(bs[n])
    ensures forall n: nat | n < |loader| ::
      bs[n] == Paired(LbfgsOutput(o.At(n), loader[n].images, loader[n].targets, epsilon, maxIterations), loader[n])
  {
    var outputs := seq(|loader|, n requires 0 <= n < |loader| =>
      LbfgsOutput(o.At(n), loader[n].images, loader[n].targets, epsilon, maxIterations));
    PairedBatches(outputs, loader)
  }

  ghost function EnsembleSamples(o: Calls, loader: seq<LabelledBatch>, epsilon: real, maxIterations: int):
    (bs: seq<seq<Evaluated>>)
    requires ValidLoader(loader)
    ensures |bs| == |loader| && forall n | 0 <= n < |bs| :: WellShaped(bs[n])
    ensures forall n: nat | n < |loader| ::
      bs[n] == Paired(EnsembleOutput(o.At(n), loader[n].images, loader[n].targets, epsilon, maxIterations), loader[n])
  {
    var outputs := seq(|loader|, n requires 0 <= n < |loader| =>
      EnsembleOutput(o.At(n), loader[n].images, loader[n].targets, epsilon, maxIterations));
    PairedBatches(outputs, loader)
  }

  /** A report under one of the five published names is that of the attack of this name. */
  ghost predicate IsNamesake(
    o: Calls, r: AttackResult, name: string, loader: seq<LabelledBatch>, epsilon: real, maxIterations: int)
    requires ValidLoader(loader)
  {
    (name == "fgsm" ==> Ok(r) == ReportOn(o.network, name, FgsmSamples(o, loader, epsilon, maxIterations)))
    && (name == "pgd" ==> Ok(r) == ReportOn(o.network, name, PgdSamples(o, loader, epsilon, maxIterations)))
    && (name == "cw" ==> Ok(r) == ReportOn(o.network, name, CwSamples(o, loader, epsilon, maxIterations)))
    && (name == "lbfgs" ==> Ok(r) == ReportOn(o.network, name, LbfgsSamples(o, loader, epsilon, maxIterations)))
    && (name == "ensemble" ==> Ok(r) == ReportOn(o.network, name, EnsembleSamples(o, loader, epsilon, maxIterations)))
  }

  lemma FgsmIsEvaluated(o: Calls, loader: seq<LabelledBatch>, epsilon: real, maxIterations: int)
    requires ValidLoader(loader)
    ensures EvaluatedSet(o, FGSM, loader, epsilon, maxIterations) == FgsmSamples(o, loader, epsilon, maxIterations)
  {
    var bs := EvaluatedSet(o, FGSM, loader, epsilon, maxIterations);
    var cs := FgsmSamples(o, loader, epsilon, maxIterations);
    forall n: nat | n < |loader| ensures bs[n] == cs[n] {
      assert bs[n] == EvaluatedBatch(o.At(n), FGSM, loader[n], epsilon, maxIterations);
    }
  }

  lemma PgdIsEvaluated(o: Calls, loader: seq<LabelledBatch>, epsilon: real, maxIterations: int)
    requires ValidLoader(loader)
    ensures EvaluatedSet(o, PGD, loader, epsilon, maxIterations) == PgdSamples(o, loader, epsilon, maxIterations)
  {
    var bs := EvaluatedSet(o, PGD, loader, epsilon, maxIterations);
    var cs := PgdSamples(o, loader, epsilon, maxIterations);
    forall n: nat | n < |loader| ensures bs[n] == cs[n] {
      assert bs[n] == EvaluatedBatch(o.At(n), PGD, loader[n], epsilon, maxIterations);
    }
  }

  lemma CwIsEvaluated(o: Calls, loader: seq<LabelledBatch>, epsilon: real, maxIterations: int)
    requires ValidLoader(loader)
    ensures EvaluatedSet(o, CW, loader, epsilon, maxIterations) == CwSamples(o, loader, epsilon, maxIterations)
  {
    var bs := EvaluatedSet(o, CW, loader, epsilon, maxIterations);
    var cs := CwSamples(o, loader, epsilon, maxIterations);
    forall n: nat | n < |loader| ensures bs[n] == cs[n] {
      assert bs[n] == EvaluatedBatch(o.At(n), CW, loader[n], epsilon, maxIterations);
    }
  }

  lemma LbfgsIsEvaluated(o: Calls, loader: seq<LabelledBatch>, epsilon: real, maxIterations: int)
    requires ValidLoader(loader)
    ensures EvaluatedSet(o, LBFGS, loader, epsilon, maxIterations) == LbfgsSamples(o, loader, epsilon, maxIterations)
  {
    var bs := EvaluatedSet(o, LBFGS, loader, epsilon, maxIterations);
    var cs := LbfgsSamples(o, loader, epsilon, maxIterations);
    forall n: nat | n < |loader| ensures bs[n] == cs[n] {
      assert bs[n] == EvaluatedBatch(o.At(n), LBFGS, loader[n], epsilon, maxIterations);
    }
  }

  lemma EnsembleIsEvaluated(o: Calls, loader: seq<LabelledBatch>, epsilon: real, maxIterations: int)
    requires ValidLoader(loader)
    ensures EvaluatedSet(o, ENSEMBLE, loader, epsilon, maxIterations)
            == EnsembleSamples(o, loader, epsilon, maxIterations)
  {
    var bs := EvaluatedSet(o, ENSEMBLE, loader, epsilon, maxIterations);
    var cs := EnsembleSamples(o, loader, epsilon, maxIterations);
    forall n: nat | n < |loader| ensures bs[n] == cs[n] {
      assert bs[n] == EvaluatedBatch(o.At(n), ENSEMBLE, loader[n], epsilon, maxIterations);
    }
  }

  lemma EvaluationsAreNamesakes(
    o: Calls, r: AttackResult, name: string, loader: seq<LabelledBatch>, epsilon: real, maxIterations: int)
    requires ValidLoader(loader) && Ok(r) == Evaluation(o, name, loader, epsilon, maxIterations)
    ensures IsNamesake(o, r, name, loader, epsilon, maxIterations)
  {
    FgsmIsEvaluated(o, loader, epsilon, maxIterations);
    PgdIsEvaluated(o, loader, epsilon, maxIterations);
    CwIsEvaluated(o, loader, epsilon, maxIterations);
    LbfgsIsEvaluated(o, loader, epsilon, maxIterations);
    EnsembleIsEvaluated(o, loader, epsilon, maxIterations);
  }

  method EvaluateAttack(o: Calls, loader: seq<LabelledBatch>, name: string, epsilon: real, maxIterations: int)
    returns (r: Result<AttackResult, EngineError>)
    requires ValidLoader(loader)
    ensures r == Evaluation(o, name, loader, epsilon, maxIterations)
    ensures r.Ok? ==> IsNamesake(o, r.value, name, loader, epsilon, maxIterations)
  {
    var attack := GetAttack(name);
    if attack.None? {
      return Err(UnknownAttack(name));
    }
    ghost var bs := EvaluatedSet(o, attack.value, loader, epsilon, maxIterations);
    var t := TallyBatches(o, loader, attack.value, epsilon, maxIterations, bs);
    AccumulationIgnoresBatching(o.network, bs);
    r := Summarise(name, t, o.network.runtimeMs(name));
    if r.Ok? {
      EvaluationsAreNamesakes(o, r.value, name, loader, epsilon, maxIterations);
    }
  }

  // ------------------------------------------------------- which name runs which attack

  /** A report is publishable: fractions are fractions and the perturbation is inside the budget. */
  ghost predicate Publishable(r: AttackResult, name: string, epsilon: real) {
    r.attackName == name && 0.0 <= r.robustAccuracy <= 1.0 && r.samples > 0
    && 0.0 <= r.perturbationNorm <= SafeEpsilon(epsilon) && r.perturbationNorm < 0.11
  }

  /** `r` is a publishable report, and the right one. */
  ghost predicate Reported(
    o: Calls, r: AttackResult, name: string, loader: seq<LabelledBatch>, epsilon: real, maxIterations: int)
    requires ValidLoader(loader)
  {
    Publishable(r, name, epsilon) && Ok(r) == Evaluation(o, name, loader, epsilon, maxIterations)
  }

  lemma FractionIsAtMostOne(part: nat, whole: nat)
    requires part <= whole && whole > 0
    ensures 0.0 <= part as real / whole as real <= 1.0
  {
  }

  /** Every element of a flattened sequence comes from one of its parts. */
  lemma {:induction false} FindBatch<T>(bs: seq<seq<T>>, e: T) returns (n: nat)
    requires e in Flatten(bs)
    ensures n < |bs| && e in bs[n]
  {
    if e in bs[|bs| - 1] {
      n := |bs| - 1;
    } else {
      n := FindBatch(bs[..|bs| - 1], e);
    }
  }

  lemma PairedIsInBall(x: Batch, b: LabelledBatch, radius: real, e: Evaluated)
    requires |b.images| == |b.targets| && InBall(x, b.images, radius) && 0.0 <= radius && e in Paired(x, b)
    ensures |e.adversarial| == |e.image| && Deviation(e.adversarial, e.image) <= radius
  {
    var i :| 0 <= i < |x| && Paired(x, b)[i] == e;
    DeviationIsTheMaximum(e.adversarial, e.image);
  }

  lemma EvaluatedSampleIsInBall(
    o: Oracle, name: AttackName, b: LabelledBatch, epsilon: real, maxIterations: int, e: Evaluated)
    requires ValidBatch(b) && 0.0 < epsilon
    requires e in EvaluatedBatch(o, name, b, epsilon, maxIterations)
    ensures |e.adversarial| == |e.image| && Deviation(e.adversarial, e.image) <= SafeEpsilon(epsilon)
  {
    EveryAttackIsFeasible(o, name, b.images, b.targets, epsilon, maxIterations);
    PairedIsInBall(AttackOutput(o, name, b.images, b.targets, epsilon, maxIterations), b, SafeEpsilon(epsilon), e);
  }

  lemma {:induction false} WorstIsBounded(es: seq<Evaluated>, bound: real)
    requires WellShaped(es) && 0.0 <= bound && forall e | e in es :: Deviation(e.adversarial, e.image) <= bound
    ensures Worst(es) <= bound
  {
    if es != [] {
      WorstIsBounded(es[..|es| - 1], bound);
      assert es[|es| - 1] in es;
    }
  }

  lemma EvaluationIsPublishable(o: Calls, name: string, loader: seq<LabelledBatch>, epsilon: real, maxIterations: int)
    requires ValidLoader(loader) && 0.0 < epsilon
    ensures var r := Evaluation(o, name, loader, epsilon, maxIterations); r.Ok? ==> Publishable(r.value, name, epsilon)
  {
    var r := Evaluation(o, name, loader, epsilon, maxIterations);
    if r.Ok? {
      var a := GetAttack(name).value;
      var bs := EvaluatedSet(o, a, loader, epsilon, maxIterations);
      var es := Flatten(bs);
      AccumulationIgnoresBatching(o.network, bs);
      forall e | e in es ensures Deviation(e.adversarial, e.image) <= SafeEpsilon(epsilon) {
        var b := FindBatch(bs, e);
        EvaluatedSampleIsInBall(o.At(b), a, loader[b], epsilon, maxIterations, e);
      }
      WorstIsBounded(es, SafeEpsilon(epsilon));
      WorstIsTheMaximum(es);
      FractionIsAtMostOne(CorrectCount(o.network, es), |es|);
    }
  }

  ghost predicate AllKnown(names: seq<string>) {
    forall n | 0 <= n < |names| :: GetAttack(names[n]).Some?
  }

  lemma WhenEvaluationSucceeds(o: Calls, name: string, loader: seq<LabelledBatch>, epsilon: real, maxIterations: int)
    requires ValidLoader(loader)
    ensures Evaluation(o, name, loader, epsilon, maxIterations).Ok? <==> GetAttack(name).Some? && loader != []
  {
    if GetAttack(name).Some? {
      var bs := EvaluatedSet(o, GetAttack(name).value, loader, epsilon, maxIterations);
      if loader != [] {
        assert ValidBatch(loader[|loader| - 1]);
        assert |Flatten(bs)| >= |bs[|bs| - 1]| > 0;
      }
    }
  }

  /** The three things `_evaluate_attack` can answer. */
  lemma PossibleEvaluations(
    o: Calls, name: string, loader: seq<LabelledBatch>, epsilon: real, maxIterations: int,
    r: Result<AttackResult, EngineError>)
    requires ValidLoader(loader) && 0.0 < epsilon && r == Evaluation(o, name, loader, epsilon, maxIterations)
    ensures r.Ok? ==> GetAttack(name).Some? && loader != [] && r.value.perturbationNorm <= epsilon
                      && Reported(o, r.value, name, loader, epsilon, maxIterations)
    ensures r.Err? ==> (r.error == UnknownAttack(name) && GetAttack(name).None?)
                       || (r.error == EmptyEvaluationSet && loader == [])
  {
    WhenEvaluationSucceeds(o, name, loader, epsilon, maxIterations);
    EvaluationIsPublishable(o, name, loader, epsilon, maxIterations);
  }

  /**
   * One attack of the job: evaluate it, and reject a perturbation above the requested budget.
   * Over exact reals the rejection never happens.
   */
  method EvaluateWithinBudget(o: Calls, loader: seq<LabelledBatch>, name: string, epsilon: real, maxIterations: int)
    returns (r: Result<AttackResult, EngineError>)
    requires ValidLoader(loader) && 0.0 < epsilon
    ensures r == Evaluation(o, name, loader, epsilon, maxIterations)
  {
    r := EvaluateAttack(o, loader, name, epsilon, maxIterations);
    PossibleEvaluations(o, name, loader, epsilon, maxIterations, r);
    if r.Ok? && r.value.perturbationNorm > epsilon + 0.000001 {
      return Err(EpsilonConstraintViolation(name));
    }
  }

  /** `es` is what the evaluation of each attack must answer. */
  ghost predicate AreEvaluations(
    es: seq<Result<AttackResult, EngineError>>, o: Session, attacks: seq<string>, loader: seq<LabelledBatch>,
        epsilon: real,
    maxIterations: int)
    requires ValidLoader(loader)
  {
    |es| == |attacks|
    && forall n {:trigger Evaluation(o(n), attacks[n], loader, epsilon, maxIterations)} | 0 <= n < |attacks| ::
         es[n] == Evaluation(o(n), attacks[n], loader, epsilon, maxIterations)
  }

  /** All values in order, or the first error. */
  function Collect<T, E>(es: seq<Result<T, E>>): Result<seq<T>, E> {
    if es == [] then Ok([])
    else
      match Collect(es[..|es| - 1])
      case Err(e) => Err(e)
      case Ok(before) =>
        match es[|es| - 1]
        case Err(e) => Err(e)
        case Ok(v) => Ok(before + [v])
  }

  lemma {:induction false} CollectIsInOrder<T, E>(es: seq<Result<T, E>>)
    ensures Collect(es).Ok? ==>
      |Collect(es).value| == |es| && forall n | 0 <= n < |es| :: es[n] == Ok(Collect(es).value[n])
    ensures Collect(es).Err? ==>
      exists n | 0 <= n < |es| :: es[n] == Err(Collect(es).error) && forall m | 0 <= m < n :: es[m].Ok?
  {
    if es != [] {
      var init := es[..|es| - 1];
      CollectIsInOrder(init);
      if Collect(init).Err? {
        var n :| 0 <= n < |init| && init[n] == Err(Collect(init).error) && forall m | 0 <= m < n :: init[m].Ok?;
        assert es[n] == Err(Collect(es).error);
        forall m | 0 <= m < n ensures es[m].Ok? {
          assert es[m] == init[m];
        }
      } else if es[|es| - 1].Err? {
        forall m | 0 <= m < |es| - 1 ensures es[m].Ok? {
          assert es[m] == init[m];
        }
      }
    }
  }

  lemma {:induction false} FirstErrorDecides<T, E>(es: seq<Result<T, E>>, n: nat)
    requires n <= |es| && Collect(es[..n]).Err?
    ensures Collect(es) == Collect(es[..n])
    decreases |es|
  {
    if n < |es| {
      assert es[..|es| - 1][..n] == es[..n];
      FirstErrorDecides(es[..|es| - 1], n);
    } else {
      assert es[..n] == es;
    }
  }

  lemma CollectStep<T, E>(es: seq<Result<T, E>>, n: nat)
    requires n < |es| && Collect(es[..n]).Ok?
    ensures es[n].Ok? ==> Collect(es[..n + 1]) == Ok(Collect(es[..n]).value + [es[n].value])
    ensures es[n].Err? ==> Collect(es) == Err(es[n].error)
  {
    assert es[..n + 1][..n] == es[..n] && es[..n + 1][n] == es[n];
    if es[n].Err? {
      FirstErrorDecides(es, n + 1);
    }
  }

  method EvaluateNth(o: Session, loader: seq<LabelledBatch>, attacks: seq<string>, n: nat, epsilon: real,
      maxIterations: int,
                     ghost es: seq<Result<AttackResult, EngineError>>)
    returns (r: Result<AttackResult, EngineError>)
    requires ValidLoader(loader) && 0.0 < epsilon && n < |attacks|
    requires AreEvaluations(es, o, attacks, loader, epsilon, maxIterations)
    ensures r == es[n]
  {
    r := EvaluateWithinBudget(o(n), loader, attacks[n], epsilon, maxIterations);
  }

  /** The loop over attacks. */
  method EvaluateInOrder(o: Session, loader: seq<LabelledBatch>, attacks: seq<string>, epsilon: real,
      maxIterations: int,
                         ghost es: seq<Result<AttackResult, EngineError>>)
    returns (r: Result<seq<AttackResult>, EngineError>)
    requires ValidLoader(loader) && 0.0 < epsilon && AreEvaluations(es, o, attacks, loader, epsilon, maxIterations)
    ensures r == Collect(es)
  {
    var results: seq<AttackResult> := [];
    for index := 0 to |attacks|
      invariant Collect(es[..index]) == Ok(results)
    {
      var result := EvaluateNth(o, loader, attacks, index, epsilon, maxIterations, es);
      CollectStep(es, index);
      if result.Err? {
        return Err(result.error);
      }
      results := results + [result.value];
    }
    assert es[..|es|] == es;
    return Ok(results);
  }

  /** What each attack of the job must answer. */
  ghost function Evaluations(o: Session, attacks: seq<string>, loader: seq<LabelledBatch>, epsilon: real,
      maxIterations: int):
    (es: seq<Result<AttackResult, EngineError>>)
    requires ValidLoader(loader)
    ensures AreEvaluations(es, o, attacks, loader, epsilon, maxIterations)
  {
    seq(|attacks|, n requires 0 <= n < |attacks| => Evaluation(o(n), attacks[n], loader, epsilon, maxIterations))
  }

  lemma EvaluatedAt(
    o: Session, attacks: seq<string>, loader: seq<LabelledBatch>, epsilon: real, maxIterations: int,
    es: seq<Result<AttackResult, EngineError>>, n: nat)
    requires ValidLoader(loader) && 0.0 < epsilon && n < |attacks|
    requires AreEvaluations(es, o, attacks, loader, epsilon, maxIterations)
    ensures es[n].Ok? ==>
      loader != [] && GetAttack(attacks[n]).Some?
          && Reported(o(n), es[n].value, attacks[n], loader, epsilon, maxIterations)
    ensures es[n].Err? ==>
      (es[n].error == UnknownAttack(attacks[n]) && GetAttack(attacks[n]).None?) || (es[n].error == EmptyEvaluationSet
          && loader == [])
  {
    PossibleEvaluations(o(n), attacks[n], loader, epsilon, maxIterations,
        Evaluation(o(n), attacks[n], loader, epsilon, maxIterations));
  }

  /**
   * The job itself.  Over exact reals the epsilon check can never fire: the only errors are
   * an unknown attack name and an empty evaluation set, and otherwise every attack is
   * reported once, in the order given.
   */
  method RunBenchmark(o: Session, loader: seq<LabelledBatch>, attacks: seq<string>, epsilon: real, maxIterations: int)
    returns (r: Result<seq<AttackResult>, EngineError>)
    requires ValidLoader(loader) && 0.0 < epsilon
    ensures r.Ok? <==> attacks == [] || (loader != [] && AllKnown(attacks))
    ensures r.Ok? ==> |r.value| == |attacks|
    ensures r.Ok? ==>
      forall n | 0 <= n < |attacks| :: Reported(o(n), r.value[n], attacks[n], loader, epsilon, maxIterations)
    ensures r.Ok? ==> forall n | 0 <= n < |attacks| ::
      IsNamesake(o(n), r.value[n], attacks[n], loader, epsilon, maxIterations)
    ensures r.Err? ==> (r.error == EmptyEvaluationSet && loader == [])
                       || (r.error.UnknownAttack? && r.error.name in attacks && GetAttack(r.error.name).None?)
  {
    ghost var es := Evaluations(o, attacks, loader, epsilon, maxIterations);
    r := EvaluateInOrder(o, loader, attacks, epsilon, maxIterations, es);
    CollectIsInOrder(es);
    forall n | 0 <= n < |attacks|
      ensures r.Ok? ==> loader != [] && GetAttack(attacks[n]).Some?
                        && Reported(o(n), r.value[n], attacks[n], loader, epsilon, maxIterations)
      ensures es[n].Err? ==> (es[n].error == UnknownAttack(attacks[n]) && GetAttack(attacks[n]).None?)
                             || (es[n].error == EmptyEvaluationSet && loader == [])
    {
      EvaluatedAt(o, attacks, loader, epsilon, maxIterations, es, n);
    }
    if r.Ok? {
      forall n | 0 <= n < |attacks| ensures IsNamesake(o(n), r.value[n], attacks[n], loader, epsilon, maxIterations) {
        EvaluationsAreNamesakes(o(n), r.value[n], attacks[n], loader, epsilon, maxIterations);
      }
    }
  }

  // ------------------------------------------------------------ the ensemble

  /** Run on the same batches with the same draws, two attacks differ in nothing but their algorithm. */
  ghost predicate SameDraws(o: Calls, p: Calls, loader: seq<LabelledBatch>) {
    o.network == p.network && forall n: nat | n < |loader| :: o.At(n) == p.At(n)
  }

  lemma DivisionIsMonotone(a: real, b: real, n: nat)
    requires a <= b && n > 0
    ensures a / n as real <= b / n as real
  {
  }

  lemma LargerSumLargerMean(a: string, s: Tally, b: string, t: Tally, m: nat, n: nat)
    requires s.total == t.total > 0 && s.nllSum <= t.nllSum
    ensures Report(a, s, m).meanNll <= Report(b, t, n).meanNll && Report(a, s, m).samples == Report(b, t, n).samples
  {
    DivisionIsMonotone(s.nllSum, t.nllSum, s.total);
  }

  lemma {:induction false} LossDominates(o: Oracle, bs: seq<seq<Evaluated>>, cs: seq<seq<Evaluated>>)
    requires (forall b | b in bs :: WellShaped(b)) && (forall c | c in cs :: WellShaped(c)) && |bs| == |cs|
    requires forall n | 0 <= n < |bs| :: |bs[n]| == |cs[n]| && NllTotal(o, bs[n]) <= NllTotal(o, cs[n])
    ensures Accumulated(o, bs).nllSum <= Accumulated(o, cs).nllSum
    ensures Accumulated(o, bs).total == Accumulated(o, cs).total
  {
    if bs != [] {
      LossDominates(o, bs[..|bs| - 1], cs[..|cs| - 1]);
    }
  }

  lemma EnsembleBatchLossDominates(o: Oracle, a: AttackName, b: LabelledBatch, epsilon: real, maxIterations: int)
    requires ValidBatch(b) && a in {PGD, CW, LBFGS}
    ensures NllTotal(o, EvaluatedBatch(o, a, b, epsilon, maxIterations))
            <= NllTotal(o, EvaluatedBatch(o, ENSEMBLE, b, epsilon, maxIterations))
  {
    BatchLoss(o, a, b, epsilon, maxIterations);
    BatchLoss(o, ENSEMBLE, b, epsilon, maxIterations);
    EnsembleDominatesOnABatch(o, b.images, b.targets, epsilon, maxIterations, a);
  }

  lemma EnsembleLossDominates(
    o: Calls, a: AttackName, p: Calls, loader: seq<LabelledBatch>, epsilon: real, maxIterations: int)
    requires ValidLoader(loader) && a in {PGD, CW, LBFGS} && SameDraws(o, p, loader)
    ensures var s, t := Accumulated(o.network, EvaluatedSet(o, a, loader, epsilon, maxIterations)),
                        Accumulated(p.network, EvaluatedSet(p, ENSEMBLE, loader, epsilon, maxIterations));
            s.nllSum <= t.nllSum && s.total == t.total
  {
    var bs, cs := EvaluatedSet(o, a, loader, epsilon, maxIterations),
        EvaluatedSet(p, ENSEMBLE, loader, epsilon, maxIterations);
    forall n: nat | n < |loader|
      ensures |bs[n]| == |cs[n]| && NllTotal(o.network, bs[n]) <= NllTotal(o.network, cs[n])
    {
      EnsembleBatchLossDominates(o.At(n), a, loader[n], epsilon, maxIterations);
      TallyReadsTheNetwork(o.At(n), o.network, bs[n]);
      TallyReadsTheNetwork(o.At(n), o.network, cs[n]);
    }
    LossDominates(o.network, bs, cs);
  }

  lemma EvaluationIsTheAccumulation(
    o: Calls, name: string, a: AttackName, loader: seq<LabelledBatch>, epsilon: real, maxIterations: int)
    returns (t: Tally)
    requires ValidLoader(loader) && loader != [] && GetAttack(name) == Some(a)
    ensures t == Accumulated(o.network, EvaluatedSet(o, a, loader, epsilon, maxIterations)) && t.total > 0
    ensures Evaluation(o, name, loader, epsilon, maxIterations) == Ok(Report(name, t, o.network.runtimeMs(name)))
  {
    t := Accumulated(o.network, EvaluatedSet(o, a, loader, epsilon, maxIterations));
    WhenEvaluationSucceeds(o, name, loader, epsilon, maxIterations);
    AccumulationIgnoresBatching(o.network, EvaluatedSet(o, a, loader, epsilon, maxIterations));
  }

  /** On the same batches and draws the ensemble's reported mean NLL is at least each member's. */
  lemma EnsembleReportsTheLargestLoss(
    o: Calls, member: string, a: AttackName, p: Calls, ensemble: string, loader: seq<LabelledBatch>, epsilon: real,
    maxIterations: int)
    requires ValidLoader(loader) && loader != [] && GetAttack(member) == Some(a) && a in {PGD, CW, LBFGS}
    requires GetAttack(ensemble) == Some(ENSEMBLE) && SameDraws(o, p, loader)
    ensures var alone, best := Evaluation(o, member, loader, epsilon, maxIterations),
                               Evaluation(p, ensemble, loader, epsilon, maxIterations);
            alone.Ok? && best.Ok? && alone.value.samples == best.value.samples
            && alone.value.meanNll <= best.value.meanNll
  {
    var s := EvaluationIsTheAccumulation(o, member, a, loader, epsilon, maxIterations);
    var t := EvaluationIsTheAccumulation(p, ensemble, ENSEMBLE, loader, epsilon, maxIterations);
    EnsembleLossDominates(o, a, p, loader, epsilon, maxIterations);
    LargerSumLargerMean(member, s, ensemble, t, o.network.runtimeMs(member), o.network.runtimeMs(ensemble));
  }
}
