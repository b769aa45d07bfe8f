/**
  `Internals::MinMaxNoLock`: the count, the lowest and the highest sample.

  The object keeps three fields; the ghost `Seen` is the stream of samples
  since the last reset, and `Valid()` says what the fields mean in terms of
  it. `reset` only clears the count, so `min` and `max` keep stale values
  that mean nothing until the next update.
 */
module MinMax {
  import opened Numeric
  import opened Series
  import opened Welford

  class MinMaxNoLock {
    var count: nat
    var min: real
    var max: real
    ghost var Seen: seq<real>

    ghost predicate Valid()
      reads this
    {
      count == |Seen| && (count > 0 ==> min == MinOf(Seen) && max == MaxOf(Seen))
    }

    /** A value-initialised accumulator: count 0, min and max 0. */
    constructor ()
      ensures Valid() && Seen == []
      ensures count == 0 && min == 0.0 && max == 0.0
    {
      count, min, max := 0, 0.0, 0.0;
      Seen := [];
    }

    /** A copy of `other`, as the copy in `operator+` makes. */
    constructor Copy(other: MinMaxNoLock)
      requires other.Valid()
      ensures Valid() && Seen == other.Seen
      ensures count == other.count && min == other.min && max == other.max
    {
      count, min, max := other.count, other.min, other.max;
      Seen := other.Seen;
    }

    /** Forgets the samples; `min` and `max` are left as they were. */
    method Reset()
      modifies this
      requires Valid()
      ensures Valid() && Seen == []
      ensures count == 0 && min == old(min) && max == old(max)
    {
      count := 0;
      Seen := [];
    }

    /** Takes one sample: the first one sets both bounds, later ones widen them. */
    method Update(value: real)
      modifies this
      requires Valid()
      ensures Valid() && Seen == old(Seen) + [value]
      ensures count == old(count) + 1
      ensures old(count) == 0 ==> min == value && max == value
      ensures old(count) > 0 ==> min == Min2(value, old(min)) && max == Max2(value, old(max))
    {
      if count == 0 {
        min := value;
        max := value;
      } else {
        MinMaxStep(Seen, value);
        min := Min2(value, min);
        max := Max2(value, max);
      }
      count := count + 1;
      Seen := Seen + [value];
    }

    /**
      `operator+=`: afterwards the object describes its own samples followed by
      those of `rhs`. `rhs` may be this object itself.
     */
    method AddAssign(rhs: MinMaxNoLock)
      modifies this
      requires Valid() && rhs.Valid()
      ensures Valid() && Seen == old(Seen) + old(rhs.Seen)
      ensures count == old(count) + old(rhs.count)
      ensures old(count) == 0 && old(rhs.count) == 0 ==> min == old(min) && max == old(max)
      ensures old(count) == 0 && old(rhs.count) > 0 ==> min == old(rhs.min) && max == old(rhs.max)
      ensures old(count) > 0 && old(rhs.count) == 0 ==> min == old(min) && max == old(max)
      ensures old(count) > 0 && old(rhs.count) > 0 ==>
                min == Min2(old(min), old(rhs.min)) && max == Max2(old(max), old(rhs.max))
      ensures rhs == this ==> count == 2 * old(count) && min == old(min) && max == old(max)
    {
      ghost var merged := Seen + rhs.Seen;
      if count == 0 && rhs.count == 0 {
        Seen := merged;
        return;
      }
      if count == 0 {
        assert merged == rhs.Seen;
        min := rhs.min;
        max := rhs.max;
      } else if rhs.count != 0 {
        MinMaxConcat(Seen, rhs.Seen);
        min := Min2(min, rhs.min);
        max := Max2(max, rhs.max);
      } else {
        assert merged == Seen;
      }
      count := count + rhs.count;
      Seen := merged;
    }

    /** `operator+`: a fresh accumulator holding the merge; both operands stay as they were. */
    static method Plus(lhs: MinMaxNoLock, rhs: MinMaxNoLock) returns (result: MinMaxNoLock)
      requires lhs.Valid() && rhs.Valid()
      ensures fresh(result) && result.Valid() && result.Seen == lhs.Seen + rhs.Seen
      ensures result.count == lhs.count + rhs.count
      ensures lhs.count == 0 && rhs.count == 0 ==> result.min == lhs.min && result.max == lhs.max
      ensures lhs.count == 0 && rhs.count > 0 ==> result.min == rhs.min && result.max == rhs.max
      ensures lhs.count > 0 && rhs.count == 0 ==> result.min == lhs.min && result.max == lhs.max
      ensures lhs.count > 0 && rhs.count > 0 ==>
                result.min == Min2(lhs.min, rhs.min) && result.max == Max2(lhs.max, rhs.max)
      ensures unchanged(lhs, rhs)
    {
      result := new MinMaxNoLock.Copy(lhs);
      result.AddAssign(rhs);
    }

    /** The number of samples since the last reset. */
    function Count(): (r: nat)
      reads this
      requires Valid()
      ensures r == |Seen|
    {
      count
    }

    /** The lowest sample, or NaN when there is none. */
    function Min(): (r: Reading)
      reads this
      requires Valid()
      ensures r.NaN? <==> |Seen| == 0
      ensures r.Num? ==> r.value in Seen && forall i :: 0 <= i < |Seen| ==> r.value <= Seen[i]
    {
      if count == 0 then NaN else MinOfLowest(Seen); Num(min)
    }

    /** The highest sample, or NaN when there is none. */
    function Max(): (r: Reading)
      reads this
      requires Valid()
      ensures r.NaN? <==> |Seen| == 0
      ensures r.Num? ==> r.value in Seen && forall i :: 0 <= i < |Seen| ==> r.value >= Seen[i]
    {
      if count == 0 then NaN else MaxOfHighest(Seen); Num(max)
    }
  }

  /** With at least one sample the two bounds are ordered. */
  lemma MinBelowMax(m: MinMaxNoLock)
    requires m.Valid() && m.Count() > 0
    ensures m.Min().Num? && m.Max().Num? && m.Min().value <= m.Max().value
  {
    assert m.Seen[0] in m.Seen;
  }
}
