/**
  `Variance`: count, bounds, mean and the sum of squared deviations M2,
  kept with Welford's update. The mutex of the source only serialises the
  calls and is not modelled; the getters are the `*_nolock` functions.
 */
module Variance {
  import opened Numeric
  import opened Series
  import opened Welford

  class Variance {
    var count: nat
    var min: real
    var max: real
    var mean: real
    var m2: real
    ghost var Seen: seq<real>

    ghost predicate Valid()
      reads this
    {
      && count == |Seen| && mean == Mean0(Seen) && m2 == M2(Seen)
      && (count > 0 ==> min == MinOf(Seen) && max == MaxOf(Seen))
    }

    constructor ()
      ensures Valid() && Seen == []
      ensures count == 0 && min == 0.0 && max == 0.0 && mean == 0.0 && m2 == 0.0
    {
      count, min, max, mean, m2 := 0, 0.0, 0.0, 0.0, 0.0;
      Seen := [];
    }

    /** Clears count, mean and M2; the bounds keep stale values. */
    method Reset()
      modifies this
      requires Valid()
      ensures Valid() && Seen == []
      ensures count == 0 && mean == 0.0 && m2 == 0.0 && min == old(min) && max == old(max)
    {
      count := 0;
      mean := 0.0;
      m2 := 0.0;
      Seen := [];
    }

    /**
      The bounds as in MinMax, then Welford's step: the mean moves by
      `delta / count` and M2 grows by `delta` times the deviation from the
      new mean.
     */
    method Update(value: real)
      modifies this
      requires Valid()
      ensures Valid() && Seen == old(Seen) + [value]
      ensures count == old(count) + 1
      ensures old(count) == 0 ==> min == value && max == value
      ensures old(count) > 0 ==> min == Min2(value, old(min)) && max == Max2(value, old(max))
      ensures mean == NextMean(old(mean), value, count as real)
      ensures m2 == NextM2(old(m2), old(mean), mean, value)
    {
      // The bounds and the moments do not depend on each other; the new
      // moments are computed into locals first and all fields are written last.
      var n := count + 1;
      var delta := value - mean;
      var mean1 := NextMean(mean, value, n as real);  // mean += delta / count
      var delta2 := value - mean1;
      var m21 := m2 + delta * delta2;
      WelfordStep(Seen, value, n, mean, m2, mean1, m21);
      if count == 0 {
        min := value;
        max := value;
      } else {
        MinMaxStep(Seen, value);
        min := Min2(value, min);
        max := Max2(value, max);
      }
      count, mean, m2 := n, mean1, m21;
      Seen := Seen + [value];
    }

    function Count(): (r: nat)
      reads this
      requires Valid()
      ensures r == |Seen|
    {
      count
    }

    function Min(): (r: Reading)
      reads this
      requires Valid()
      ensures r.NaN? <==> |Seen| == 0
      ensures r.Num? ==> r.value == MinOf(Seen)
    {
      if count == 0 then NaN else Num(min)
    }

    /** The arithmetic mean of the samples, or NaN when there are none. */
    function Mean(): (r: Reading)
      reads this
      requires Valid()
      ensures r.NaN? <==> |Seen| == 0
      ensures r.Num? ==> r.value * (|Seen| as real) == Sum(Seen)
    {
      if count == 0 then NaN else Num(mean)
    }

    function Max(): (r: Reading)
      reads this
      requires Valid()
      ensures r.NaN? <==> |Seen| == 0
      ensures r.Num? ==> r.value == MaxOf(Seen)
    {
      if count == 0 then NaN else Num(max)
    }

    /** The population variance M2/n: NaN without samples, never negative, 0 for one sample. */
    function Variance(): (r: Reading)
      reads this
      requires Valid()
      ensures r.NaN? <==> |Seen| < 1
      ensures r.Num? ==> r.value * (|Seen| as real) == SumDev2(Seen, Mean0(Seen)) && 0.0 <= r.value
      ensures |Seen| == 1 ==> r == Num(0.0)
    {
      SumDev2NonNegative(Seen, Mean0(Seen));
      if count == 1 then SingleFlat(Seen); Num(m2 / count as real)
      else if count < 1 then NaN else Num(m2 / count as real)
    }

    /** The sample variance M2/(n-1): NaN below two samples. */
    function SampleVariance(): (r: Reading)
      reads this
      requires Valid()
      ensures r.NaN? <==> |Seen| < 2
      ensures r.Num? ==> r.value * ((|Seen| - 1) as real) == SumDev2(Seen, Mean0(Seen)) && 0.0 <= r.value
    {
      SumDev2NonNegative(Seen, Mean0(Seen));
      if count < 2 then NaN else Num(m2 / (count - 1) as real)
    }
  }

  /** The samples 10, 12, 12, 14 have sample variance 8/3. */
  lemma SampleVarianceExample(v: Variance)
    requires v.Valid() && v.Seen == [10.0, 12.0, 12.0, 14.0]
    ensures v.SampleVariance() == Num(8.0 / 3.0)
  {
    Four(10.0, 12.0, 12.0, 14.0, 12.0);
    assert Mean0(v.Seen) == 12.0;
    assert M2(v.Seen) == 8.0;
  }

  /** 4, 7, 13, 16 have mean 10 and M2 = 36 + 9 + 9 + 36. */
  lemma SpreadExample()
    ensures M2([4.0, 7.0, 13.0, 16.0]) == 90.0
  {
    Four(4.0, 7.0, 13.0, 16.0, 10.0);
    assert Mean0([4.0, 7.0, 13.0, 16.0]) == 10.0;
  }

  /** 4, 7, 13, 16 moved by any offset `c` have sample variance 30. */
  lemma ShiftedSampleVariance(v: Variance, c: real)
    requires v.Valid() && v.Seen == Shift([4.0, 7.0, 13.0, 16.0], c)
    ensures v.SampleVariance() == Num(30.0)
  {
    ShiftInvariance([4.0, 7.0, 13.0, 16.0], c);
    SpreadExample();
  }
}
