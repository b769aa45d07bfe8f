/**
  `Internals::KurtosisNoLock`: an embedded MinMax for count and bounds, the
  mean, and the central moments M2, M3 and M4, updated online in a fixed
  order (M4 from the old M2 and M3, M3 from the old M2, M2 last).
 */
module Kurtosis {
  import opened Numeric
  import opened Series
  import opened Welford
  import opened MinMax
  import Variance

  class KurtosisNoLock {
    const minmax: MinMaxNoLock
    var mean: real
    var m2: real
    var m3: real
    var m4: real

    ghost predicate Valid()
      reads this, minmax
    {
      && minmax.Valid()
      && mean == Mean0(minmax.Seen) && m2 == M2(minmax.Seen) && m3 == M3(minmax.Seen) && m4 == M4(minmax.Seen)
    }

    /** The samples since the last reset. */
    ghost function Seen(): seq<real>
      reads this, minmax
    {
      minmax.Seen
    }

    constructor ()
      ensures Valid() && fresh(minmax) && Seen() == []
      ensures minmax.count == 0 && mean == 0.0 && m2 == 0.0 && m3 == 0.0 && m4 == 0.0
    {
      minmax := new MinMaxNoLock();
      mean, m2, m3, m4 := 0.0, 0.0, 0.0, 0.0;
    }

    /** Clears the MinMax part and zeroes the mean and the moments. */
    method Reset()
      modifies this, minmax
      requires Valid()
      ensures Valid() && Seen() == []
      ensures minmax.count == 0 && mean == 0.0 && m2 == 0.0 && m3 == 0.0 && m4 == 0.0
    {
      minmax.Reset();
      mean, m2, m3, m4 := 0.0, 0.0, 0.0, 0.0;
    }

    /**
      One sample. With `n1` the old count, `n = n1 + 1`, `delta = value - mean`
      and `delta_n = delta / n`: the mean grows by `delta_n`, then M4, M3 and
      M2 are replaced in that order, each from the values the others still
      hold at that point.
     */
    method Update(value: real)
      modifies this, minmax
      requires Valid()
      ensures Valid() && Seen() == old(Seen()) + [value]
      ensures minmax.count == old(minmax.count) + 1
      ensures mean == old(mean) + (value - old(mean)) / (minmax.count as real)
      ensures m4 == M4Next(old(m4), old(m3), old(m2), old(minmax.count) as real, minmax.count as real, value - old(mean))
      ensures m3 == M3Next(old(m3), old(m2), old(minmax.count) as real, minmax.count as real, value - old(mean))
      ensures m2 == M2Next(old(m2), old(minmax.count) as real, minmax.count as real, value - old(mean))
    {
      var n1 := minmax.count;
      KurtosisStep(minmax.Seen, value, n1, mean, m2, m3, m4);
      minmax.Update(value);
      var n := (n1 + 1) as real;
      var delta := value - mean;
      var deltaN := delta / n;
      mean := mean + deltaN;
      m4 := M4Next(m4, m3, m2, n1 as real, n, delta);
      m3 := M3Next(m3, m2, n1 as real, n, delta);
      m2 := M2Next(m2, n1 as real, n, delta);
    }

    function Count(): (r: nat)
      reads this, minmax
      requires Valid()
      ensures r == |Seen()|
    {
      minmax.Count()
    }

    function Min(): (r: Reading)
      reads this, minmax
      requires Valid()
      ensures r.NaN? <==> |Seen()| == 0
      ensures r.Num? ==> r.value == MinOf(Seen())
    {
      minmax.Min()
    }

    function Max(): (r: Reading)
      reads this, minmax
      requires Valid()
      ensures r.NaN? <==> |Seen()| == 0
      ensures r.Num? ==> r.value == MaxOf(Seen())
    {
      minmax.Max()
    }

    /** The arithmetic mean, or NaN when there are no samples. */
    function Mean(): (r: Reading)
      reads this, minmax
      requires Valid()
      ensures r.NaN? <==> |Seen()| == 0
      ensures r.Num? ==> r.value * (|Seen()| as real) == Sum(Seen())
    {
      if minmax.count == 0 then NaN else Num(mean)
    }

    /** The population variance M2/n: NaN without samples, never negative. */
    function Variance(): (r: Reading)
      reads this, minmax
      requires Valid()
      ensures r.NaN? <==> |Seen()| < 1
      ensures r.Num? ==> r.value * (|Seen()| as real) == SumDev2(Seen(), Mean0(Seen())) && 0.0 <= r.value
    {
      SumDev2NonNegative(Seen(), Mean0(Seen()));
      if minmax.count < 1 then NaN else Num(m2 / minmax.count as real)
    }

    /** The sample variance M2/(n-1): NaN below two samples. */
    function SampleVariance(): (r: Reading)
      reads this, minmax
      requires Valid()
      ensures r.NaN? <==> |Seen()| < 2
      ensures r.Num? ==> r.value * ((|Seen()| - 1) as real) == SumDev2(Seen(), Mean0(Seen())) && 0.0 <= r.value
    {
      SumDev2NonNegative(Seen(), Mean0(Seen()));
      if minmax.count < 2 then NaN else Num(m2 / (minmax.count - 1) as real)
    }

    /**
      `n M4 / M2^2`, with no guard on the count: it is 0/0, hence NaN, exactly
      when M2 is zero (no samples, or all samples equal).
     */
    function Kurtosis(): (r: Reading)
      reads this, minmax
      requires Valid()
      ensures r.NaN? <==> M2(Seen()) == 0.0
      ensures r.Num? ==> r.value * Square(M2(Seen())) == (|Seen()| as real) * M4(Seen())
    {
      if m2 == 0.0 then FlatMoments(Seen()); Div(minmax.count as real * m4, Square(m2))
      else Div(minmax.count as real * m4, Square(m2))
    }

    /** The kurtosis minus 3; NaN where the kurtosis is. */
    function ExcessKurtosis(): (r: Reading)
      reads this, minmax
      requires Valid()
      ensures r.NaN? <==> Kurtosis().NaN?
      ensures r.Num? ==> r.value == Kurtosis().value - 3.0
    {
      match Kurtosis()
      case NaN => NaN
      case Num(k) => Num(k - 3.0)
    }

    /**
      The skew squared, `n M3^2 / (M2^2 M2)`: the source's `sqrt(n) M3 / M2^1.5`
      without the root. NaN exactly when M2 is zero.
     */
    function SkewSquared(): (r: Reading)
      reads this, minmax
      requires Valid()
      ensures r.NaN? <==> M2(Seen()) == 0.0
      ensures r.Num? ==> r.value * Product(Square(M2(Seen())), M2(Seen())) == (|Seen()| as real) * Square(M3(Seen()))
    {
      SumDev2NonNegative(Seen(), Mean0(Seen()));
      if m2 == 0.0 then FlatMoments(Seen()); Div(minmax.count as real * Square(m3), Product(Square(m2), m2))
      else Div(minmax.count as real * Square(m3), Product(Square(m2), m2))
    }

    /**
      The RMS squared, `mean^2 + M2/n`: NaN without samples, otherwise the
      mean of the squared samples.
     */
    function RmsSquared(): (r: Reading)
      reads this, minmax
      requires Valid()
      ensures r.NaN? <==> |Seen()| < 1
      ensures r.Num? ==> r.value == SumDev2(Seen(), 0.0) / (|Seen()| as real) && 0.0 <= r.value
    {
      if minmax.count < 1 then NaN
      else
        Welford.RmsSquared(Seen());
        SumDev2NonNegative(Seen(), 0.0);
        Num(RmsSquare(mean, m2, minmax.count as real))
    }
  }

  /**
    The M2 step of this accumulator, `delta (delta/n) n1`, is Welford's step
    `delta (x - mean')` of Variance with the updated mean `mean'`.
   */
  lemma IncrementsAgree(m2: real, mean: real, x: real, n1: real)
    requires 0.0 <= n1
    ensures M2Next(m2, n1, n1 + 1.0, x - mean) == NextM2(m2, mean, NextMean(mean, x, n1 + 1.0), x)
  {
    assert x - NextMean(mean, x, n1 + 1.0) == (x - mean) * n1 / (n1 + 1.0);
  }

  /** After the same stream this accumulator and Variance report the same mean and variances. */
  lemma AgreesWithVariance(k: KurtosisNoLock, v: Variance.Variance)
    requires k.Valid() && v.Valid() && k.Seen() == v.Seen
    ensures k.Count() == v.Count() && k.Mean() == v.Mean()
    ensures k.Variance() == v.Variance() && k.SampleVariance() == v.SampleVariance()
  {
  }

  /** A reset followed by the single sample 2 reports 2 as min, mean and max. */
  lemma FirstSampleAfterReset(k: KurtosisNoLock)
    requires k.Valid() && k.Seen() == [] + [2.0]
    ensures k.Count() == 1 && k.Min() == Num(2.0) && k.Mean() == Num(2.0) && k.Max() == Num(2.0)
  {
    assert k.Seen() == [2.0];
    AppendSum([], 2.0);
    MinOfLowest(k.Seen());
    MaxOfHighest(k.Seen());
  }

  /** The offset stream c+4, c+7, c+13, c+16 has sample variance 30 whatever `c`. */
  lemma HighOffsetSampleVariance(k: KurtosisNoLock, c: real)
    requires k.Valid() && k.Seen() == Shift([4.0, 7.0, 13.0, 16.0], c)
    ensures k.Count() == 4 && k.SampleVariance() == Num(30.0)
  {
    ShiftInvariance([4.0, 7.0, 13.0, 16.0], c);
    Variance.SpreadExample();
  }

  /** One sample -5: the RMS squared is 25, so the RMS is 5. */
  lemma RmsFirstSample(k: KurtosisNoLock)
    requires k.Valid() && k.Seen() == [-5.0]
    ensures k.RmsSquared() == Num(25.0)
  {
    assert k.Seen() == [] + [-5.0];
    AppendDev2([], -5.0, 0.0);
  }

  /** `k` periods of the square wave 7, -1: DC value 3 plus amplitude 4. */
  function Wave(k: nat): (r: seq<real>)
    ensures |r| == 2 * k
  {
    if k == 0 then [] else Wave(k - 1) + [7.0, -1.0]
  }

  lemma {:induction false} WaveSquares(k: nat)
    ensures SumDev2(Wave(k), 0.0) == 50.0 * (k as real)
  {
    if k > 0 {
      WaveSquares(k - 1);
      SumDev2Concat(Wave(k - 1), [7.0, -1.0], 0.0);
      assert [7.0, -1.0] == [] + [7.0] + [-1.0];
      AppendDev2([], 7.0, 0.0);
      AppendDev2([7.0], -1.0, 0.0);
    }
  }

  /** Any whole number of periods of the wave has RMS squared 25, so RMS 5. */
  lemma RmsSquareWave(k: KurtosisNoLock, periods: nat)
    requires k.Valid() && periods > 0 && k.Seen() == Wave(periods)
    ensures k.RmsSquared() == Num(25.0)
  {
    WaveSquares(periods);
    var n := (periods as real) * 2.0;
    assert |k.Seen()| as real == n;
    assert 50.0 * (periods as real) / n == 25.0;
  }
}
