/**
 * `defence_score` of src/service/jobs.py.  Accuracies are stored as NUMERIC(5,4), so a value
 * is a whole number of 1/10000ths and so is the published score.
 */
module Scoring {
  import opened Prelude

  function Sum(values: seq<nat>): nat {
    if values == [] then 0 else values[0] + Sum(values[1..])
  }

  /** Decimal.quantize with ROUND_HALF_UP of the non-negative quotient `total / count`. */
  function RoundHalfUp(total: nat, count: nat): nat
    requires count > 0
  {
    if 2 * (total % count) >= count then total / count + 1 else total / count
  }

  function DefenceScore(values: seq<nat>): Option<nat> {
    if values == [] then None else Some(RoundHalfUp(Sum(values), |values|))
  }

  /** `r` is the whole number in (mean - 1/2, mean + 1/2]: no rounding but half-up does this. */
  ghost predicate IsHalfUp(total: int, count: int, r: int) {
    2 * total - count < 2 * (count * r) <= 2 * total + count
  }

  lemma Distribute(k: int, a: int)
    ensures k * (a + 1) == k * a + k
  {
  }

  lemma RoundHalfUpIsHalfUp(total: nat, count: nat)
    requires count > 0
    ensures IsHalfUp(total, count, RoundHalfUp(total, count))
  {
    var q, m := total / count, total % count;
    assert total == count * q + m;
    Distribute(count, q);
  }

  lemma MulMonotone(k: int, a: int, b: int)
    requires a <= b && 0 <= k
    ensures k * a <= k * b
  {
    assert k * (b - a) >= 0;
    assert k * (b - a) == k * b - k * a;
  }

  /** Half-up rounding of a larger total is never smaller; for equal totals it is unique. */
  lemma HalfUpIsMonotone(s: int, t: int, count: int, q: int, r: int)
    requires count > 0 && s <= t && IsHalfUp(s, count, q) && IsHalfUp(t, count, r)
    ensures q <= r
  {
    if q > r {
      MulMonotone(count, r + 1, q);
      Distribute(count, r);
    }
  }

  /** The published score is exactly the half-up rounding of the mean, and nothing else is. */
  lemma ScoreIsTheRoundedMean(values: seq<nat>, r: nat)
    requires values != []
    ensures DefenceScore(values) == Some(r)
            <==> 2 * Sum(values) - |values| < 2 * (|values| * r) <= 2 * Sum(values) + |values|
  {
    RoundHalfUpIsHalfUp(Sum(values), |values|);
    var s := DefenceScore(values).value;
    if IsHalfUp(Sum(values), |values|, r) {
      HalfUpIsMonotone(Sum(values), Sum(values), |values|, s, r);
      HalfUpIsMonotone(Sum(values), Sum(values), |values|, r, s);
    }
  }

  lemma {:induction false} SumIsBounded(values: seq<nat>, lo: nat, hi: nat)
    requires forall i | 0 <= i < |values| :: lo <= values[i] <= hi
    ensures lo * |values| <= Sum(values) <= hi * |values|
  {
    if values != [] {
      SumIsBounded(values[1..], lo, hi);
      Distribute(lo, |values[1..]|);
      Distribute(hi, |values[1..]|);
    }
  }

  /** The score lies between the smallest and the largest accuracy. */
  lemma ScoreIsBetweenExtremes(values: seq<nat>, lo: nat, hi: nat)
    requires values != [] && forall i | 0 <= i < |values| :: lo <= values[i] <= hi
    ensures lo <= DefenceScore(values).value <= hi
  {
    var n, s := |values|, DefenceScore(values).value;
    SumIsBounded(values, lo, hi);
    RoundHalfUpIsHalfUp(Sum(values), n);
    assert lo * n == n * lo && hi * n == n * hi;
    HalfUpIsMonotone(lo * n, Sum(values), n, lo, s);
    HalfUpIsMonotone(Sum(values), hi * n, n, s, hi);
  }

  lemma {:induction false} SumOfConcat(a: seq<nat>, b: seq<nat>)
    ensures Sum(a + b) == Sum(a) + Sum(b)
  {
    if a == [] {
      assert a + b == b;
    } else {
      SumOfConcat(a[1..], b);
      assert (a + b)[1..] == a[1..] + b;
    }
  }

  lemma EmptyMultiset(b: seq<nat>)
    requires multiset(b) == multiset{}
    ensures b == []
  {
    assert |b| == |multiset(b)|;
  }

  lemma Cancel(x: nat, m: multiset<nat>, n: multiset<nat>)
    requires multiset{x} + m == multiset{x} + n
    ensures m == n
  {
    assert m == multiset{x} + m - multiset{x};
    assert n == multiset{x} + n - multiset{x};
  }

  lemma RemoveFromMultiset(b: seq<nat>, i: nat)
    requires i < |b|
    ensures multiset(b) == multiset{b[i]} + multiset(b[..i] + b[i + 1..])
  {
    assert b == b[..i] + [b[i]] + b[i + 1..];
  }

  /** Where the first element of `a` sits in `b`; what remains of both is still the same multiset. */
  lemma MatchFirst(a: seq<nat>, b: seq<nat>) returns (i: nat)
    requires a != [] && multiset(a) == multiset(b)
    ensures i < |b| && b[i] == a[0] && multiset(a[1..]) == multiset(b[..i] + b[i + 1..])
  {
    assert a[0] in multiset(a);
    i :| 0 <= i < |b| && b[i] == a[0];
    RemoveFromMultiset(b, i);
    RemoveFromMultiset(a, 0);
    assert a[..0] + a[0 + 1..] == a[1..];
    Cancel(a[0], multiset(a[1..]), multiset(b[..i] + b[i + 1..]));
  }

  lemma RemoveFromSum(b: seq<nat>, i: nat)
    requires i < |b|
    ensures Sum(b) == b[i] + Sum(b[..i] + b[i + 1..])
  {
    assert b == b[..i] + b[i..] && b[i..][1..] == b[i + 1..];
    SumOfConcat(b[..i], b[i..]);
    SumOfConcat(b[..i], b[i + 1..]);
  }

  lemma {:induction false} SumIsOrderFree(a: seq<nat>, b: seq<nat>)
    requires multiset(a) == multiset(b)
    ensures Sum(a) == Sum(b) && |a| == |b|
  {
    if a == [] {
      EmptyMultiset(b);
    } else {
      var i := MatchFirst(a, b);
      SumIsOrderFree(a[1..], b[..i] + b[i + 1..]);
      RemoveFromSum(b, i);
    }
  }

  /** The score depends on the accuracies, not on the order of the attacks. */
  lemma ScoreIsOrderFree(a: seq<nat>, b: seq<nat>)
    requires multiset(a) == multiset(b)
    ensures DefenceScore(a) == DefenceScore(b)
  {
    SumIsOrderFree(a, b);
  }

  lemma {:induction false} SumIsMonotone(a: seq<nat>, b: seq<nat>)
    requires |a| == |b| && forall i | 0 <= i < |a| :: a[i] <= b[i]
    ensures Sum(a) <= Sum(b)
  {
    if a != [] {
      SumIsMonotone(a[1..], b[1..]);
    }
  }

  /** Raising any accuracy never lowers the score. */
  lemma ScoreIsMonotone(a: seq<nat>, b: seq<nat>)
    requires |a| == |b| > 0 && forall i | 0 <= i < |a| :: a[i] <= b[i]
    ensures DefenceScore(a).value <= DefenceScore(b).value
  {
    SumIsMonotone(a, b);
    RoundHalfUpIsHalfUp(Sum(a), |a|);
    RoundHalfUpIsHalfUp(Sum(b), |b|);
    HalfUpIsMonotone(Sum(a), Sum(b), |a|, DefenceScore(a).value, DefenceScore(b).value);
  }
}
