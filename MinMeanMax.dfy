/**
  `Internals::MinMeanMaxNoLock`: a MinMax accumulator plus the running sum,
  from which the mean is derived on demand.
 */
module MinMeanMax {
  import opened Numeric
  import opened Series
  import opened Welford
  import opened MinMax

  class MinMeanMaxNoLock {
    /** The embedded MinMax state; it is a member by value in the source. */
    const minmax: MinMaxNoLock
    var sum: real

    ghost predicate Valid()
      reads this, minmax
    {
      minmax.Valid() && sum == Sum(minmax.Seen)
    }

    /** The samples since the last reset. */
    ghost function Seen(): seq<real>
      reads this, minmax
    {
      minmax.Seen
    }

    constructor ()
      ensures Valid() && fresh(minmax) && Seen() == []
      ensures minmax.count == 0 && sum == 0.0
    {
      minmax := new MinMaxNoLock();
      sum := 0.0;
    }

    constructor Copy(other: MinMeanMaxNoLock)
      requires other.Valid()
      ensures Valid() && fresh(minmax) && Seen() == other.Seen()
      ensures minmax.count == other.minmax.count && minmax.min == other.minmax.min
      ensures minmax.max == other.minmax.max && sum == other.sum
    {
      minmax := new MinMaxNoLock.Copy(other.minmax);
      sum := other.sum;
    }

    /** Clears the MinMax part and the sum. */
    method Reset()
      modifies this, minmax
      requires Valid()
      ensures Valid() && Seen() == []
      ensures minmax.count == 0 && sum == 0.0
    {
      minmax.Reset();
      sum := 0.0;
    }

    /** One MinMax update, and the value added to the sum. */
    method Update(value: real)
      modifies this, minmax
      requires Valid()
      ensures Valid() && Seen() == old(Seen()) + [value]
      ensures minmax.count == old(minmax.count) + 1 && sum == old(sum) + value
    {
      AppendSum(minmax.Seen, value);
      minmax.Update(value);
      sum := sum + value;
    }

    /**
      `operator+=`: merges the MinMax parts and adds the sums. The two
      embedded MinMax states are distinct objects unless `rhs` is this object.
     */
    method AddAssign(rhs: MinMeanMaxNoLock)
      modifies this, minmax
      requires Valid() && rhs.Valid()
      requires rhs == this || rhs.minmax != minmax
      ensures Valid() && Seen() == old(Seen()) + old(rhs.Seen())
      ensures minmax.count == old(minmax.count) + old(rhs.minmax.count)
      ensures sum == old(sum) + old(rhs.sum)
    {
      SumConcat(minmax.Seen, rhs.minmax.Seen);
      minmax.AddAssign(rhs.minmax);
      sum := sum + rhs.sum;
    }

    /** `operator+`: a fresh accumulator holding the merge; both operands stay as they were. */
    static method Plus(lhs: MinMeanMaxNoLock, rhs: MinMeanMaxNoLock) returns (result: MinMeanMaxNoLock)
      requires lhs.Valid() && rhs.Valid()
      ensures fresh(result) && fresh(result.minmax) && result.Valid()
      ensures result.Seen() == lhs.Seen() + rhs.Seen()
      ensures result.sum == lhs.sum + rhs.sum
      ensures unchanged(lhs, lhs.minmax, rhs, rhs.minmax)
    {
      result := new MinMeanMaxNoLock.Copy(lhs);
      result.AddAssign(rhs);
    }

    function Count(): (r: nat)
      reads this, minmax
      requires Valid()
      ensures r == |Seen()|
    {
      minmax.Count()
    }

    function Min(): (r: Reading)
      reads this, minmax
      requires Valid()
      ensures r.NaN? <==> |Seen()| == 0
      ensures r.Num? ==> r.value == MinOf(Seen())
    {
      minmax.Min()
    }

    /** The mean, or NaN when there are no samples. */
    function Mean(): (r: Reading)
      reads this, minmax
      requires Valid()
      ensures r.NaN? <==> |Seen()| == 0
      ensures r.Num? ==> r.value == Mean0(Seen()) && r.value * (|Seen()| as real) == Sum(Seen())
    {
      if minmax.count == 0 then NaN else Num(sum / minmax.count as real)
    }

    function Max(): (r: Reading)
      reads this, minmax
      requires Valid()
      ensures r.NaN? <==> |Seen()| == 0
      ensures r.Num? ==> r.value == MaxOf(Seen())
    {
      minmax.Max()
    }
  }

  /**
    Merging two accumulators reports what one accumulator fed with both
    streams reports: the counts add, the mean is the count-weighted mean and
    the bounds are the pairwise bounds.
   */
  lemma MergeReports(a: MinMeanMaxNoLock, b: MinMeanMaxNoLock, r: MinMeanMaxNoLock)
    requires a.Valid() && b.Valid() && r.Valid() && r.Seen() == a.Seen() + b.Seen()
    requires a.Count() > 0 && b.Count() > 0
    ensures r.Count() == a.Count() + b.Count()
    ensures r.Min() == Num(Min2(a.Min().value, b.Min().value))
    ensures r.Max() == Num(Max2(a.Max().value, b.Max().value))
    ensures r.Mean() == Num(MergedMean(a.Mean().value, b.Mean().value, a.Count() as real, b.Count() as real))
  {
    MinMaxConcat(a.Seen(), b.Seen());
    MeanMerge(a.Seen(), b.Seen());
  }
}
