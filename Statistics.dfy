/**
  `Statistics`: the same fields and the same Welford update as `Variance`;
  only the population variance differs, which reports NaN below two
  samples instead of below one.
 */
module Statistics {
  import opened Numeric
  import opened Series
  import opened Welford

  class Statistics {
    var count: nat
    var min: real
    var max: real
    var mean: real
    var m2: real
    ghost var Seen: seq<real>

    ghost predicate Valid()
      reads this
    {
      && count == |Seen| && mean == Mean0(Seen) && m2 == M2(Seen)
      && (count > 0 ==> min == MinOf(Seen) && max == MaxOf(Seen))
    }

    constructor ()
      ensures Valid() && Seen == []
      ensures count == 0 && min == 0.0 && max == 0.0 && mean == 0.0 && m2 == 0.0
    {
      count, min, max, mean, m2 := 0, 0.0, 0.0, 0.0, 0.0;
      Seen := [];
    }

    /** Clears count, mean and M2; the bounds keep stale values. */
    method Reset()
      modifies this
      requires Valid()
      ensures Valid() && Seen == []
      ensures count == 0 && mean == 0.0 && m2 == 0.0 && min == old(min) && max == old(max)
    {
      count := 0;
      mean := 0.0;
      m2 := 0.0;
      Seen := [];
    }

    /**
      The bounds as in MinMax, then Welford's step: the mean moves by
      `delta / count` and M2 grows by `delta` times the deviation from the
      new mean.
     */
    method Update(value: real)
      modifies this
      requires Valid()
      ensures Valid() && Seen == old(Seen) + [value]
      ensures count == old(count) + 1
      ensures old(count) == 0 ==> min == value && max == value
      ensures old(count) > 0 ==> min == Min2(value, old(min)) && max == Max2(value, old(max))
      ensures mean == NextMean(old(mean), value, count as real)
      ensures m2 == NextM2(old(m2), old(mean), mean, value)
    {
      // The bounds and the moments do not depend on each other; the new
      // moments are computed into locals first and all fields are written last.
      var n := count + 1;
      var delta := value - mean;
      var mean1 := NextMean(mean, value, n as real);  // mean += delta / count
      var delta2 := value - mean1;
      var m21 := m2 + delta * delta2;
      WelfordStep(Seen, value, n, mean, m2, mean1, m21);
      if count == 0 {
        min := value;
        max := value;
      } else {
        MinMaxStep(Seen, value);
        min := Min2(value, min);
        max := Max2(value, max);
      }
      count, mean, m2 := n, mean1, m21;
      Seen := Seen + [value];
    }

    function Count(): (r: nat)
      reads this
      requires Valid()
      ensures r == |Seen|
    {
      count
    }

    function Min(): (r: Reading)
      reads this
      requires Valid()
      ensures r.NaN? <==> |Seen| == 0
      ensures r.Num? ==> r.value == MinOf(Seen)
    {
      if count == 0 then NaN else Num(min)
    }

    /** The arithmetic mean of the samples, or NaN when there are none. */
    function Mean(): (r: Reading)
      reads this
      requires Valid()
      ensures r.NaN? <==> |Seen| == 0
      ensures r.Num? ==> r.value * (|Seen| as real) == Sum(Seen)
    {
      if count == 0 then NaN else Num(mean)
    }

    function Max(): (r: Reading)
      reads this
      requires Valid()
      ensures r.NaN? <==> |Seen| == 0
      ensures r.Num? ==> r.value == MaxOf(Seen)
    {
      if count == 0 then NaN else Num(max)
    }

    /** The population variance M2/n: NaN below two samples, never negative. */
    function Variance(): (r: Reading)
      reads this
      requires Valid()
      ensures r.NaN? <==> |Seen| < 2
      ensures r.Num? ==> r.value * (|Seen| as real) == SumDev2(Seen, Mean0(Seen)) && 0.0 <= r.value
    {
      SumDev2NonNegative(Seen, Mean0(Seen));
      if count < 2 then NaN else Num(m2 / count as real)
    }

    /** The sample variance M2/(n-1): NaN below two samples. */
    function SampleVariance(): (r: Reading)
      reads this
      requires Valid()
      ensures r.NaN? <==> |Seen| < 2
      ensures r.Num? ==> r.value * ((|Seen| - 1) as real) == SumDev2(Seen, Mean0(Seen)) && 0.0 <= r.value
    {
      SumDev2NonNegative(Seen, Mean0(Seen));
      if count < 2 then NaN else Num(m2 / (count - 1) as real)
    }
  }

  /** The samples 1, 2, 3: count 3, lowest 1, mean 2, highest 3. */
  lemma ThreeValues(s: Statistics)
    requires s.Valid() && s.Seen == [1.0, 2.0, 3.0]
    ensures s.Count() == 3 && s.Min() == Num(1.0) && s.Mean() == Num(2.0) && s.Max() == Num(3.0)
  {
    assert [1.0, 2.0, 3.0][..2] == [1.0, 2.0];
    assert [1.0, 2.0][..1] == [1.0];
    assert [1.0][..0] == [];
  }
}
