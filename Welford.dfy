/**
  The update and merge rules of the accumulators, proved against the closed
  forms of `Series`.

  Each lemma takes a stream `xs` (the samples seen so far) and says how the
  closed form for the longer stream follows from the closed form for `xs`,
  in exactly the arithmetic an accumulator performs.
 */
module Welford {
  import opened Series

  // ---------------------------------------------------------------------
  // Order statistics.

  lemma MinMaxStep(xs: seq<real>, x: real)
    requires |xs| > 0
    ensures MinOf(xs + [x]) == Min2(x, MinOf(xs))
    ensures MaxOf(xs + [x]) == Max2(x, MaxOf(xs))
  {
    assert (xs + [x])[..|xs|] == xs;
  }

  lemma {:induction false} MinMaxConcat(xs: seq<real>, ys: seq<real>)
    requires |xs| > 0 && |ys| > 0
    ensures MinOf(xs + ys) == Min2(MinOf(xs), MinOf(ys))
    ensures MaxOf(xs + ys) == Max2(MaxOf(xs), MaxOf(ys))
    decreases |ys|
  {
    assert (xs + ys)[..|xs + ys| - 1] == xs + ys[..|ys| - 1];
    if |ys| > 1 {
      MinMaxConcat(xs, ys[..|ys| - 1]);
    } else {
      assert (xs + ys)[..|xs + ys| - 1] == xs;
    }
  }

  // ---------------------------------------------------------------------
  // Welford's mean and second moment.

  /** The running mean moves by `(x - mean) / n`, with `n` the new count. */
  lemma MeanStep(xs: seq<real>, x: real)
    ensures Mean0(xs + [x]) == Mean0(xs) + (x - Mean0(xs)) / ((|xs| + 1) as real)
  {
    AppendSum(xs, x);
    if |xs| > 0 {
      MeanAlgebra(Sum(xs), x, |xs| as real);
    }
  }

  lemma MeanAlgebra(s: real, x: real, k: real)
    requires k > 0.0
    ensures (s + x) / (k + 1.0) == s / k + (x - s / k) / (k + 1.0)
  {
    var m := s / k;
    assert s == m * k;
    assert (s + x) == (m + (x - m) / (k + 1.0)) * (k + 1.0);
  }

  /** `t` is the step `(x - m) / (k + 1)` of the mean after `k` samples. */
  ghost predicate MeanDelta(t: real, k: real, x: real, m: real)
  {
    t * (k + 1.0) == x - m
  }

  lemma MeanStepDelta(xs: seq<real>, x: real) returns (t: real)
    ensures MeanDelta(t, |xs| as real, x, Mean0(xs))
    ensures Mean0(xs + [x]) == Mean0(xs) + t
  {
    MeanStep(xs, x);
    t := (x - Mean0(xs)) / ((|xs| + 1) as real);
  }

  /** Welford: M2 grows by `(x - old mean) * (x - new mean)`. */
  lemma M2Step(xs: seq<real>, x: real)
    ensures M2(xs + [x]) == M2(xs) + (x - Mean0(xs)) * (x - Mean0(xs + [x]))
  {
    var t := MeanStepDelta(xs, x);
    AppendDev2(xs, x, Mean0(xs + [x]));
    ShiftDev2(xs, Mean0(xs + [x]), Mean0(xs));
    MeanCentres(xs);
    M2Algebra(SumDev2(xs + [x], Mean0(xs + [x])), SumDev2(xs, Mean0(xs + [x])), SumDev2(xs, Mean0(xs)),
              SumDev(xs, Mean0(xs)), |xs| as real, x, Mean0(xs), Mean0(xs + [x]), t);
  }

  /** Welford's mean step after the `n`-th sample `x`. */
  function NextMean(mean: real, x: real, n: real): real
    requires n != 0.0
  {
    mean + (x - mean) / n
  }

  /** Welford's M2 step, from the mean before (`mean`) and after (`mean1`) the sample. */
  function NextM2(m2: real, mean: real, mean1: real, x: real): real
  {
    m2 + (x - mean) * (x - mean1)
  }

  /**
    One Welford update keeps the mean and M2 equal to their closed forms:
    from the mean and M2 of `xs`, `NextMean` and `NextM2` give those of
    `xs + [x]`.
   */
  lemma WelfordStep(xs: seq<real>, x: real, n: nat, mean: real, m2: real, mean1: real, m21: real)
    requires n == |xs| + 1 && mean == Mean0(xs) && m2 == M2(xs)
    requires mean1 == NextMean(mean, x, n as real) && m21 == NextM2(m2, mean, mean1, x)
    ensures mean1 == Mean0(xs + [x]) && m21 == M2(xs + [x])
  {
    MeanStep(xs, x);
    M2Step(xs, x);
  }

  lemma M2Algebra(a: real, b: real, s: real, b1: real, k: real, x: real, m: real, m1: real, t: real)
    requires MeanDelta(t, k, x, m) && m1 == m + t
    requires Shifted2(b, s, b1, k, m - m1) && b1 == 0.0
    requires a == b + Square(x - m1)
    ensures a == s + (x - m) * (x - m1)
  {
    assert x - m1 == k * t;
    assert a == s + k * t * t + (k * t) * (k * t);
  }

  // ---------------------------------------------------------------------
  // The third and fourth moments, in the order the kurtosis update uses.

  /**
    The kurtosis update of M3 and M4, as written: `n1` is the old count,
    `n = n1 + 1`, `delta = x - mean`, `delta_n = delta / n` and
    `term1 = delta * delta_n * n1`. M4 reads the old M2 and M3, M3 reads the
    old M2, and M2 itself grows by `term1`.
   */
  function M3Next(m3: real, m2: real, n1: real, n: real, delta: real): real
    requires n != 0.0
  {
    var deltaN := delta / n;
    var term1 := delta * deltaN * n1;
    m3 + term1 * deltaN * (n - 2.0) - 3.0 * deltaN * m2
  }

  function M4Next(m4: real, m3: real, m2: real, n1: real, n: real, delta: real): real
    requires n != 0.0
  {
    var deltaN := delta / n;
    var deltaN2 := deltaN * deltaN;
    var term1 := delta * deltaN * n1;
    m4 + term1 * deltaN2 * (n * n - 3.0 * n + 3.0) + 6.0 * deltaN2 * m2 - 4.0 * deltaN * m3
  }

  /** The kurtosis update of M2: `m2 + term1`. */
  function M2Next(m2: real, n1: real, n: real, delta: real): real
    requires n != 0.0
  {
    m2 + delta * (delta / n) * n1
  }

  lemma KurtosisM2Step(xs: seq<real>, x: real)
    ensures M2(xs + [x]) == M2Next(M2(xs), |xs| as real, (|xs| + 1) as real, x - Mean0(xs))
  {
    var t := MeanStepDelta(xs, x);
    M2Step(xs, x);
    Moment2Algebra(M2(xs + [x]), M2(xs), |xs| as real, (|xs| + 1) as real, x, Mean0(xs), Mean0(xs + [x]), t);
  }

  lemma KurtosisM3Step(xs: seq<real>, x: real)
    ensures M3(xs + [x]) == M3Next(M3(xs), M2(xs), |xs| as real, (|xs| + 1) as real, x - Mean0(xs))
  {
    var t := MeanStepDelta(xs, x);
    AppendDev3(xs, x, Mean0(xs + [x]));
    ShiftDev3(xs, Mean0(xs + [x]), Mean0(xs));
    MeanCentres(xs);
    Moment3Algebra(SumDev3(xs + [x], Mean0(xs + [x])), SumDev3(xs, Mean0(xs + [x])), SumDev3(xs, Mean0(xs)), SumDev2(xs, Mean0(xs)), SumDev(xs, Mean0(xs)),
                   |xs| as real, (|xs| + 1) as real, x, Mean0(xs), Mean0(xs + [x]), t);
  }

  lemma KurtosisM4Step(xs: seq<real>, x: real)
    ensures M4(xs + [x]) == M4Next(M4(xs), M3(xs), M2(xs), |xs| as real, (|xs| + 1) as real, x - Mean0(xs))
  {
    var t := MeanStepDelta(xs, x);
    AppendDev4(xs, x, Mean0(xs + [x]));
    ShiftDev4(xs, Mean0(xs + [x]), Mean0(xs));
    MeanCentres(xs);
    Moment4Algebra(SumDev4(xs + [x], Mean0(xs + [x])), SumDev4(xs, Mean0(xs + [x])), SumDev4(xs, Mean0(xs)), SumDev3(xs, Mean0(xs)), SumDev2(xs, Mean0(xs)),
                   SumDev(xs, Mean0(xs)), |xs| as real, (|xs| + 1) as real, x, Mean0(xs), Mean0(xs + [x]), t);
  }

  /**
    The kurtosis update, with `n1` samples seen and the closed forms in
    the fields, yields the closed forms of the stream with `x` appended.
   */
  lemma KurtosisStep(xs: seq<real>, x: real, n1: nat, mean: real, m2: real, m3: real, m4: real)
    requires n1 == |xs| && mean == Mean0(xs) && m2 == M2(xs) && m3 == M3(xs) && m4 == M4(xs)
    ensures Mean0(xs + [x]) == mean + (x - mean) / ((n1 + 1) as real)
    ensures M2(xs + [x]) == M2Next(m2, n1 as real, (n1 + 1) as real, x - mean)
    ensures M3(xs + [x]) == M3Next(m3, m2, n1 as real, (n1 + 1) as real, x - mean)
    ensures M4(xs + [x]) == M4Next(m4, m3, m2, n1 as real, (n1 + 1) as real, x - mean)
  {
    MeanStep(xs, x);
    KurtosisM2Step(xs, x);
    KurtosisM3Step(xs, x);
    KurtosisM4Step(xs, x);
  }

  lemma Moment2Algebra(a: real, s: real, k: real, n: real, x: real, m: real, m1: real, t: real)
    requires 0.0 <= k && n == k + 1.0 && MeanDelta(t, k, x, m) && m1 == m + t
    requires a == s + (x - m) * (x - m1)
    ensures a == M2Next(s, k, n, x - m)
  {
    assert t == (x - m) / n;
    assert x - m1 == k * t;
    assert a == s + (x - m) * ((x - m) / n) * k;
  }

  lemma Moment3Algebra(a: real, b: real, s3: real, s2: real, b1: real, k: real, n: real,
                       x: real, m: real, m1: real, t: real)
    requires 0.0 <= k && n == k + 1.0 && MeanDelta(t, k, x, m) && m1 == m + t
    requires Shifted3(b, s3, s2, b1, k, m - m1) && b1 == 0.0
    requires a == b + Cube(x - m1)
    ensures a == M3Next(s3, s2, k, n, x - m)
  {
    assert t == (x - m) / n;
    assert x - m1 == k * t;
    assert m - m1 == -t;
    assert b == s3 - 3.0 * t * s2 - k * t * t * t;
    assert a == s3 - 3.0 * t * s2 - k * t * t * t + k * k * k * t * t * t;
  }

  lemma Moment4Algebra(a: real, b: real, s4: real, s3: real, s2: real, b1: real, k: real, n: real,
                       x: real, m: real, m1: real, t: real)
    requires 0.0 <= k && n == k + 1.0 && MeanDelta(t, k, x, m) && m1 == m + t
    requires Shifted4(b, s4, s3, s2, b1, k, m - m1) && b1 == 0.0
    requires a == b + Pow4(x - m1)
    ensures a == M4Next(s4, s3, s2, k, n, x - m)
  {
    assert t == (x - m) / n;
    assert x - m1 == k * t;
    assert m - m1 == -t;
    assert b == s4 - 4.0 * t * s3 + 6.0 * t * t * s2 + k * t * t * t * t;
    assert a == s4 - 4.0 * t * s3 + 6.0 * t * t * s2 + k * t * t * t * t + k * k * k * k * t * t * t * t;
    assert (x - m) / n == t;
    assert M4Next(s4, s3, s2, k, n, x - m)
        == s4 + (x - m) * t * k * (t * t) * (n * n - 3.0 * n + 3.0) + 6.0 * (t * t) * s2 - 4.0 * t * s3;
    assert n * (n * n - 3.0 * n + 3.0) == k * k * k + 1.0;
  }

  // ---------------------------------------------------------------------
  // Merging two accumulators (Chan et al.).

  lemma SumIsCountMean(xs: seq<real>)
    ensures Sum(xs) == (|xs| as real) * Mean0(xs)
  {
  }

  /** A single sample has no spread. */
  lemma SingleFlat(xs: seq<real>)
    requires |xs| == 1
    ensures M2(xs) == 0.0
  {
    assert xs == [] + [xs[0]];
    AppendSum([], xs[0]);
    AppendDev2([], xs[0], xs[0]);
  }

  /** The merged mean, from the means `ma`, `mb` of `na` and `nb` samples. */
  function MergedMean(ma: real, mb: real, na: real, nb: real): real
    requires na + nb != 0.0
  {
    ma + (mb - ma) * nb / (na + nb)
  }

  /** The merged M2: both M2 plus the squared distance of the means, weighted. */
  function MergedM2(m2a: real, m2b: real, ma: real, mb: real, na: real, nb: real): real
    requires na + nb != 0.0
  {
    m2a + m2b + (mb - ma) * (mb - ma) * na * nb / (na + nb)
  }

  /** The mean of a concatenation moves from the left mean towards the right one. */
  lemma MeanMerge(xs: seq<real>, ys: seq<real>)
    requires |xs| + |ys| > 0
    ensures Mean0(xs + ys) == MergedMean(Mean0(xs), Mean0(ys), |xs| as real, |ys| as real)
  {
    SumConcat(xs, ys);
    SumIsCountMean(xs);
    SumIsCountMean(ys);
    MeanMergeAlgebra(Sum(xs + ys), Sum(xs), Sum(ys), |xs + ys| as real, |xs| as real, |ys| as real, Mean0(xs), Mean0(ys));
  }

  lemma MeanMergeAlgebra(s: real, sa: real, sb: real, n: real, na: real, nb: real, ma: real, mb: real)
    requires 0.0 < n && n == na + nb && s == sa + sb && sa == na * ma && sb == nb * mb
    ensures s / n == MergedMean(ma, mb, na, nb)
  {
    assert sa + sb == (ma + (mb - ma) * nb / (na + nb)) * (na + nb);
  }

  /** The parallel M2 rule of Chan et al. */
  lemma M2Merge(xs: seq<real>, ys: seq<real>)
    requires |xs| + |ys| > 0
    ensures M2(xs + ys) == MergedM2(M2(xs), M2(ys), Mean0(xs), Mean0(ys), |xs| as real, |ys| as real)
  {
    MeanMerge(xs, ys);
    SumDev2Concat(xs, ys, Mean0(xs + ys));
    ShiftDev2(xs, Mean0(xs + ys), Mean0(xs));
    ShiftDev2(ys, Mean0(xs + ys), Mean0(ys));
    MeanCentres(xs);
    MeanCentres(ys);
    M2MergeAlgebra(SumDev2(xs + ys, Mean0(xs + ys)), SumDev2(xs, Mean0(xs + ys)), SumDev2(ys, Mean0(xs + ys)), SumDev2(xs, Mean0(xs)), SumDev2(ys, Mean0(ys)),
                   SumDev(xs, Mean0(xs)), SumDev(ys, Mean0(ys)), |xs| as real, |ys| as real, Mean0(xs), Mean0(ys), Mean0(xs + ys));
  }

  lemma M2MergeAlgebra(a: real, pa: real, pb: real, sa: real, sb: real, b1a: real, b1b: real,
                       na: real, nb: real, ma: real, mb: real, m: real)
    requires 0.0 < na + nb && m == MergedMean(ma, mb, na, nb)
    requires Shifted2(pa, sa, b1a, na, ma - m) && b1a == 0.0
    requires Shifted2(pb, sb, b1b, nb, mb - m) && b1b == 0.0
    requires a == pa + pb
    ensures a == MergedM2(sa, sb, ma, mb, na, nb)
  {
    var w := (mb - ma) / (na + nb);
    assert (mb - ma) * nb / (na + nb) == nb * w;
    assert ma - m == -(nb * w);
    assert mb - m == na * w;
    assert a == sa + sb + na * nb * w * w * (na + nb);
    assert (mb - ma) * (mb - ma) * na * nb / (na + nb) == na * nb * w * w * (na + nb);
  }

  // ---------------------------------------------------------------------
  // Constant streams: a zero M2 forces the higher moments to zero.

  lemma {:induction false} ConstantDev(xs: seq<real>, c: real)
    requires forall i :: 0 <= i < |xs| ==> xs[i] == c
    ensures SumDev3(xs, c) == 0.0 && SumDev4(xs, c) == 0.0
    decreases |xs|
  {
    if |xs| > 0 {
      ConstantDev(xs[..|xs| - 1], c);
    }
  }

  /** With no spread, M3 and M4 vanish too: 0/0 is the only degenerate ratio. */
  lemma FlatMoments(xs: seq<real>)
    requires M2(xs) == 0.0
    ensures M3(xs) == 0.0 && M4(xs) == 0.0
  {
    SumDev2Zero(xs, Mean0(xs));
    ConstantDev(xs, Mean0(xs));
  }

  // ---------------------------------------------------------------------
  // The root mean square.

  /** The square of the rms, from the mean and M2 of `n` samples. */
  function RmsSquare(mean: real, m2: real, n: real): real
    requires n != 0.0
  {
    mean * mean + m2 / n
  }

  /** The rms squared is the mean of the squared samples. */
  lemma RmsSquared(xs: seq<real>)
    requires |xs| > 0
    ensures RmsSquare(Mean0(xs), M2(xs), |xs| as real) == SumDev2(xs, 0.0) / (|xs| as real)
  {
    var m := Mean0(xs);
    ShiftDev2(xs, 0.0, m);
    MeanCentres(xs);
    RmsAlgebra(SumDev2(xs, 0.0), SumDev2(xs, m), SumDev(xs, m), |xs| as real, m, 0.0);
  }

  lemma RmsAlgebra(a: real, s: real, b1: real, k: real, m: real, c: real)
    requires 0.0 < k && Shifted2(a, s, b1, k, m - c) && b1 == 0.0 && c == 0.0
    ensures RmsSquare(m, s, k) == a / k
  {
    assert a == s + k * m * m;
  }

  // ---------------------------------------------------------------------
  // Shifting every sample by a constant.

  function Shift(xs: seq<real>, c: real): (r: seq<real>)
    ensures |r| == |xs|
    ensures forall i :: 0 <= i < |xs| ==> r[i] == xs[i] + c
    decreases |xs|
  {
    if |xs| == 0 then [] else Shift(xs[..|xs| - 1], c) + [xs[|xs| - 1] + c]
  }

  /** Shifting every sample by `c` adds `n c` to the sum. */
  lemma {:induction false} ShiftSum(xs: seq<real>, c: real)
    ensures Sum(Shift(xs, c)) == Sum(xs) + Scale(|xs| as real, c)
    decreases |xs|
  {
    if |xs| > 0 {
      ShiftSum(xs[..|xs| - 1], c);
      assert Shift(xs, c) == Shift(xs[..|xs| - 1], c) + [xs[|xs| - 1] + c];
      AppendSum(Shift(xs[..|xs| - 1], c), xs[|xs| - 1] + c);
      AppendSum(xs[..|xs| - 1], xs[|xs| - 1]);
      assert xs[..|xs| - 1] + [xs[|xs| - 1]] == xs;
      ShiftSumStep(Sum(Shift(xs, c)), Sum(Shift(xs[..|xs| - 1], c)), Sum(xs), Sum(xs[..|xs| - 1]),
                   (|xs| - 1) as real, xs[|xs| - 1], c);
    }
  }

  lemma ShiftSumStep(t: real, tp: real, s: real, sp: real, k: real, x: real, c: real)
    requires tp == sp + Scale(k, c) && t == tp + (x + c) && s == sp + x
    ensures t == s + Scale(k + 1.0, c)
  {
  }

  lemma {:induction false} ShiftDev2Sum(xs: seq<real>, c: real, m: real)
    ensures SumDev2(Shift(xs, c), m + c) == SumDev2(xs, m)
    decreases |xs|
  {
    if |xs| > 0 {
      ShiftDev2Sum(xs[..|xs| - 1], c, m);
      assert Shift(xs, c) == Shift(xs[..|xs| - 1], c) + [xs[|xs| - 1] + c];
      AppendDev2(Shift(xs[..|xs| - 1], c), xs[|xs| - 1] + c, m + c);
      assert xs[|xs| - 1] + c - (m + c) == xs[|xs| - 1] - m;
    }
  }

  /** Adding `c` to every sample moves the mean by `c`... */
  lemma ShiftMean(xs: seq<real>, c: real)
    requires |xs| > 0
    ensures Mean0(Shift(xs, c)) == Mean0(xs) + c
  {
    ShiftSum(xs, c);
    ShiftMeanAlgebra(Sum(Shift(xs, c)), Sum(xs), |xs| as real, c);
  }

  /** ... and leaves M2 alone. */
  lemma ShiftInvariance(xs: seq<real>, c: real)
    requires |xs| > 0
    ensures M2(Shift(xs, c)) == M2(xs)
  {
    ShiftMean(xs, c);
    ShiftDev2Sum(xs, c, Mean0(xs));
  }

  lemma ShiftMeanAlgebra(t: real, s: real, k: real, c: real)
    requires 0.0 < k && t == s + Scale(k, c)
    ensures t / k == s / k + c
  {
  }
}
