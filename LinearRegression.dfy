/**
  `Internals::LinearRegressionNoLock`: two variance accumulators, for x and
  for y, and the co-moment S_xy, from which the least-squares line is read.

  The variance accumulator it embeds is not part of this model's source; the
  class `VarianceNoLock` below is a minimal stand-in with the members the
  regression uses: the count, the mean (0 while empty), M2, Welford's update
  and the parallel merge of Chan et al.
 */
module LinearRegression {
  import opened Numeric
  import opened Series
  import opened Welford
  import opened CoMoment
  import Variance

  /** Stand-in for `Internals::VarianceNoLock`: count, mean and M2. */
  class VarianceNoLock {
    var count: nat
    var mean0: real
    var m2: real
    ghost var Seen: seq<real>

    ghost predicate Valid()
      reads this
    {
      count == |Seen| && mean0 == Mean0(Seen) && m2 == M2(Seen)
    }

    constructor ()
      ensures Valid() && Seen == []
      ensures count == 0 && mean0 == 0.0 && m2 == 0.0
    {
      count, mean0, m2 := 0, 0.0, 0.0;
      Seen := [];
    }

    method Reset()
      modifies this
      requires Valid()
      ensures Valid() && Seen == []
      ensures count == 0 && mean0 == 0.0 && m2 == 0.0
    {
      count, mean0, m2 := 0, 0.0, 0.0;
      Seen := [];
    }

    /** Welford's step, as in Variance. */
    method Update(value: real)
      modifies this
      requires Valid()
      ensures Valid() && Seen == old(Seen) + [value]
      ensures count == old(count) + 1
      ensures mean0 == NextMean(old(mean0), value, count as real)
      ensures m2 == NextM2(old(m2), old(mean0), mean0, value)
    {
      var n := count + 1;
      var mean1 := NextMean(mean0, value, n as real);
      var m21 := NextM2(m2, mean0, mean1, value);
      WelfordStep(Seen, value, n, mean0, m2, mean1, m21);
      count, mean0, m2 := n, mean1, m21;
      Seen := Seen + [value];
    }

    /**
      The parallel merge: the count-weighted mean and the merged M2. Two
      empty operands leave the state as it is. `rhs` may be this object.
     */
    method AddAssign(rhs: VarianceNoLock)
      modifies this
      requires Valid() && rhs.Valid()
      ensures Valid() && Seen == old(Seen) + old(rhs.Seen)
      ensures count == old(count) + old(rhs.count)
      ensures count == 0 ==> mean0 == old(mean0) && m2 == old(m2)
      ensures count > 0 ==>
                && mean0 == MergedMean(old(mean0), old(rhs.mean0), old(count) as real, old(rhs.count) as real)
                && m2 == MergedM2(old(m2), old(rhs.m2), old(mean0), old(rhs.mean0), old(count) as real, old(rhs.count) as real)
    {
      var n := count + rhs.count;
      ghost var merged := Seen + rhs.Seen;
      if n == 0 {
        Seen := merged;
        return;
      }
      var mean1 := MergedMean(mean0, rhs.mean0, count as real, rhs.count as real);
      var m21 := MergedM2(m2, rhs.m2, mean0, rhs.mean0, count as real, rhs.count as real);
      MeanMerge(Seen, rhs.Seen);
      M2Merge(Seen, rhs.Seen);
      count, mean0, m2 := n, mean1, m21;
      Seen := merged;
    }

    function Count(): (r: nat)
      reads this
      requires Valid()
      ensures r == |Seen|
    {
      count
    }

    /** The mean, or NaN without samples. */
    function Mean(): (r: Reading)
      reads this
      requires Valid()
      ensures r.NaN? <==> |Seen| == 0
      ensures r.Num? ==> r.value * (|Seen| as real) == Sum(Seen)
    {
      if count == 0 then NaN else Num(mean0)
    }
  }

  class LinearRegressionNoLock {
    const statsX: VarianceNoLock
    const statsY: VarianceNoLock
    var sxy: real

    ghost predicate Valid()
      reads this, statsX, statsY
    {
      && statsX != statsY && statsX.Valid() && statsY.Valid()
      && |statsX.Seen| == |statsY.Seen| && sxy == Sxy(statsX.Seen, statsY.Seen)
    }

    /** The x values since the last reset. */
    ghost function Xs(): seq<real>
      reads this, statsX
    {
      statsX.Seen
    }

    /** The y values since the last reset, paired with `Xs()` by position. */
    ghost function Ys(): seq<real>
      reads this, statsY
    {
      statsY.Seen
    }

    constructor ()
      ensures Valid() && fresh(statsX) && fresh(statsY) && Xs() == [] && Ys() == []
      ensures sxy == 0.0
    {
      statsX := new VarianceNoLock();
      statsY := new VarianceNoLock();
      sxy := 0.0;
    }

    /** Both variance parts and S_xy back to their initial values. */
    method Reset()
      modifies this, statsX, statsY
      requires Valid()
      ensures Valid() && Xs() == [] && Ys() == []
      ensures sxy == 0.0
    {
      statsX.Reset();
      statsY.Reset();
      sxy := 0.0;
    }

    /**
      One pair: `dx` against the x-mean before the update, `dy` against the
      y-mean after it, and S_xy grows by their product.
     */
    method Update(x: real, y: real)
      modifies this, statsX, statsY
      requires Valid()
      ensures Valid() && Xs() == old(Xs()) + [x] && Ys() == old(Ys()) + [y]
      ensures statsX.count == old(statsX.count) + 1 && statsY.count == old(statsY.count) + 1
      ensures sxy == old(sxy) + Product(x - old(statsX.mean0), y - statsY.mean0)
    {
      var dx := x - statsX.mean0;
      SxyStep(statsX.Seen, statsY.Seen, x, y);
      statsX.Update(x);
      statsY.Update(y);
      var dy := y - statsY.mean0;
      sxy := sxy + Product(dx, dy);
    }

    /**
      `operator+=`: nothing happens when both sides are empty; otherwise S_xy
      gains rhs's S_xy and the weighted product of the mean differences, and
      the variance parts are merged. The parts of `rhs` are distinct from
      this object's unless `rhs` is this object.
     */
    method AddAssign(rhs: LinearRegressionNoLock)
      modifies this, statsX, statsY
      requires Valid() && rhs.Valid()
      requires rhs == this || {rhs.statsX, rhs.statsY} !! {statsX, statsY}
      ensures Valid() && Xs() == old(Xs()) + old(rhs.Xs()) && Ys() == old(Ys()) + old(rhs.Ys())
      ensures statsX.count == old(statsX.count) + old(rhs.statsX.count)
      ensures statsX.count == 0 ==> sxy == old(sxy)
      ensures statsX.count > 0 ==>
                sxy == MergedSxy(old(sxy), old(rhs.sxy), old(statsX.mean0), old(rhs.statsX.mean0),
                                 old(statsY.mean0), old(rhs.statsY.mean0),
                                 old(statsX.count) as real, old(rhs.statsX.count) as real)
    {
      var countBoth := statsX.count + rhs.statsX.count;
      if countBoth == 0 {
        return;
      }
      // The mean of an empty part is 0, which the weight na * nb cancels.
      var s := MergedSxy(sxy, rhs.sxy, statsX.mean0, rhs.statsX.mean0, statsY.mean0, rhs.statsY.mean0,
                         statsX.count as real, rhs.statsX.count as real);
      SxyMerge(statsX.Seen, statsY.Seen, rhs.statsX.Seen, rhs.statsY.Seen);
      sxy := s;
      statsX.AddAssign(rhs.statsX);
      statsY.AddAssign(rhs.statsY);
    }

    /** The number of pairs, read from the x part. */
    function Count(): (r: nat)
      reads this, statsX, statsY
      requires Valid()
      ensures r == |Xs()| && r == |Ys()|
    {
      statsX.Count()
    }

    /**
      The least-squares slope S_xy / M2x: NaN below two pairs, and NaN (0/0)
      when all x are equal.
     */
    function Slope(): (r: Reading)
      reads this, statsX, statsY
      requires Valid()
      ensures r.NaN? <==> |Xs()| < 2 || M2(Xs()) == 0.0
      ensures r.Num? ==> r.value * M2(Xs()) == Sxy(Xs(), Ys())
    {
      if statsX.count < 2 then NaN
      else if statsX.m2 == 0.0 then FlatCross(Xs(), Ys()); Div(sxy, statsX.m2)
      else Div(sxy, statsX.m2)
    }

    /** The intercept `mean y - slope * mean x`, NaN where the slope is. */
    function Intercept(): (r: Reading)
      reads this, statsX, statsY
      requires Valid()
      ensures r.NaN? <==> Slope().NaN?
      ensures r.Num? ==> r.value + Slope().value * Mean0(Xs()) == Mean0(Ys())
    {
      if statsX.count < 2 then NaN
      else
        match Slope()
        case NaN => NaN
        case Num(b) => Num(statsY.Mean().value - b * statsX.Mean().value)
    }

    /**
      The squared correlation S_xy^2 / (M2x M2y), the source's
      `S_xy / (n sd_x sd_y)` squared with population deviations: NaN below
      two pairs or when either coordinate is constant, and at most 1.
     */
    function CorrelationSquared(): (r: Reading)
      reads this, statsX, statsY
      requires Valid()
      ensures r.NaN? <==> |Xs()| < 2 || M2(Xs()) == 0.0 || M2(Ys()) == 0.0
      ensures r.Num? ==> Product(r.value, Product(M2(Xs()), M2(Ys()))) == Square(Sxy(Xs(), Ys()))
      ensures r.Num? ==> 0.0 <= r.value <= 1.0
    {
      CorrelationBounds(Xs(), Ys());
      if statsX.count < 2 then NaN
      else CorrelationOf(sxy, statsX.m2, statsY.m2)
    }

    /**
      `slope_through(x, y)` as the source computes it: NaN without pairs,
      otherwise `(S_xy + dx dy) / (M2x + dx^2)` with `dx`, `dy` the distances
      of the means from the point. The count factor of the shift is missing.
     */
    function SlopeThroughAsWritten(x: real, y: real): (r: Reading)
      reads this, statsX, statsY
      requires Valid()
      ensures r.NaN? <==> |Xs()| == 0 || M2(Xs()) + Square(Mean0(Xs()) - x) == 0.0
      ensures r.Num? ==> r.value * (M2(Xs()) + Square(Mean0(Xs()) - x))
                         == Sxy(Xs(), Ys()) + Product(Mean0(Xs()) - x, Mean0(Ys()) - y)
    {
      if statsX.count < 1 then NaN
      else
        SumDev2NonNegative(Xs(), Mean0(Xs()));
        var xShift := statsX.mean0 - x;
        var yShift := statsY.mean0 - y;
        if statsX.m2 + Square(xShift) == 0.0 then
          FlatCross(Xs(), Ys());
          Div(sxy + Product(xShift, yShift), statsX.m2 + Square(xShift))
        else
          Div(sxy + Product(xShift, yShift), statsX.m2 + Square(xShift))
    }

    /**
      The least-squares slope of a line forced through `(x, y)`: the sum of
      `(xi - x)(yi - y)` over the sum of `(xi - x)^2`, computed from the
      accumulated state as `(S_xy + n dx dy) / (M2x + n dx^2)`.
     */
    function SlopeThrough(x: real, y: real): (r: Reading)
      reads this, statsX, statsY
      requires Valid()
      ensures r.NaN? <==> |Xs()| == 0 || SumDev2(Xs(), x) == 0.0
      ensures r.Num? ==> Product(r.value, SumDev2(Xs(), x)) == SumCross(Xs(), Ys(), x, y)
    {
      ThroughFields(this, x, y);
      if statsX.count < 1 then NaN
      else ShiftedSlope(sxy, statsX.m2, statsX.count as real, statsX.mean0 - x, statsY.mean0 - y,
                        SumDev2(Xs(), x), SumCross(Xs(), Ys(), x, y))
    }

    /** The slope of the least-squares line through the origin. */
    function SlopeThroughOrigin(): (r: Reading)
      reads this, statsX, statsY
      requires Valid()
      ensures r.NaN? <==> |Xs()| == 0 || SumDev2(Xs(), 0.0) == 0.0
      ensures r.Num? ==> Product(r.value, SumDev2(Xs(), 0.0)) == SumCross(Xs(), Ys(), 0.0, 0.0)
    {
      SlopeThrough(0.0, 0.0)
    }
  }

  /**
    `(s + n dx dy) / (m2 + n dx^2)`: the co-moment `s` and the M2 `m2` moved
    from the means to a point, which are the sums `cross` and `dev` about it.
   */
  function ShiftedSlope(s: real, m2: real, n: real, dx: real, dy: real, ghost dev: real, ghost cross: real): (r: Reading)
    requires dev == m2 + Scale(n, Square(dx)) && cross == s + Scale(n, Product(dx, dy))
    requires dev == 0.0 ==> cross == 0.0
    ensures r.Num? <==> dev != 0.0
    ensures r.Num? ==> Product(r.value, dev) == cross
  {
    Div(s + Scale(n, Product(dx, dy)), m2 + Scale(n, Square(dx)))
  }

  /** `s^2 / (m2x m2y)` for a co-moment `s` and two M2 values that admit it. */
  function CorrelationOf(s: real, m2x: real, m2y: real): (r: Reading)
    requires 0.0 <= m2x && 0.0 <= m2y && Square(s) <= Product(m2x, m2y)
    requires m2x == 0.0 || m2y == 0.0 ==> s == 0.0
    ensures r.NaN? <==> m2x == 0.0 || m2y == 0.0
    ensures r.Num? ==> Product(r.value, Product(m2x, m2y)) == Square(s) && 0.0 <= r.value <= 1.0
  {
    if m2x == 0.0 || m2y == 0.0 then NaN
    else
      assert 0.0 < Product(m2x, m2y);
      Num(Square(s) / Product(m2x, m2y))
  }

  /** What the squared correlation needs: both M2 non-negative, Cauchy-Schwarz, and S_xy = 0 for a constant coordinate. */
  lemma CorrelationBounds(xs: seq<real>, ys: seq<real>)
    requires |xs| == |ys|
    ensures 0.0 <= M2(xs) && 0.0 <= M2(ys)
    ensures Square(Sxy(xs, ys)) <= Product(M2(xs), M2(ys))
    ensures M2(xs) == 0.0 || M2(ys) == 0.0 ==> Sxy(xs, ys) == 0.0
  {
    SumDev2NonNegative(xs, Mean0(xs));
    SumDev2NonNegative(ys, Mean0(ys));
    CauchySchwarz(xs, ys);
    if M2(xs) == 0.0 || M2(ys) == 0.0 {
      FlatCross(xs, ys);
    }
  }

  /** The co-moment and M2 of the state, moved from the means to the point `(x, y)`. */
  lemma ThroughFields(r: LinearRegressionNoLock, x: real, y: real)
    requires r.Valid()
    ensures r.statsX.m2 + Scale(r.statsX.count as real, Square(r.statsX.mean0 - x)) == SumDev2(r.Xs(), x)
    ensures r.sxy + Scale(r.statsX.count as real, Product(r.statsX.mean0 - x, r.statsY.mean0 - y))
            == SumCross(r.Xs(), r.Ys(), x, y)
    ensures SumDev2(r.Xs(), x) == 0.0 ==> SumCross(r.Xs(), r.Ys(), x, y) == 0.0
  {
    AboutPoint(r.Xs(), r.Ys(), x, y);
    if SumDev2(r.Xs(), x) == 0.0 {
      ThroughPoint(r.Xs(), r.Ys(), x, y);
    }
  }

  /** When every x equals the point's x, the cross sum about the point vanishes too. */
  lemma ThroughPoint(xs: seq<real>, ys: seq<real>, x: real, y: real)
    requires |xs| == |ys| && SumDev2(xs, x) == 0.0
    ensures SumCross(xs, ys, x, y) == 0.0
  {
    SumDev2Zero(xs, x);
    ConstantCross(xs, ys, x, y);
  }

  // ---------------------------------------------------------------------
  // What the fit means, and the documented examples.

  /**
    The slope minimises the sum of squared residuals `(y - my) - t (x - mx)`
    over all slopes `t` of lines through the means; the intercept puts the
    line through the means.
   */
  lemma SlopeIsLeastSquares(r: LinearRegressionNoLock, t: real)
    requires r.Valid() && r.Slope().Num?
    ensures Residual2(r.Ys(), r.Xs(), Mean0(r.Ys()), Mean0(r.Xs()), r.Slope().value)
         <= Residual2(r.Ys(), r.Xs(), Mean0(r.Ys()), Mean0(r.Xs()), t)
  {
    QuotientOf(r.Slope().value, M2(r.Xs()), Sxy(r.Xs(), r.Ys()));
    LeastSquares(r.Xs(), r.Ys(), t);
  }

  lemma QuotientOf(q: real, b: real, a: real)
    requires b != 0.0 && q * b == a
    ensures q == a / b
  {
  }

  /** Splitting the pairs at any point and merging reports what the whole stream reports. */
  lemma MergeMatchesWhole(merged: LinearRegressionNoLock, whole: LinearRegressionNoLock)
    requires merged.Valid() && whole.Valid()
    requires merged.Xs() == whole.Xs() && merged.Ys() == whole.Ys()
    ensures merged.Count() == whole.Count()
    ensures merged.Slope() == whole.Slope() && merged.Intercept() == whole.Intercept()
  {
  }

  /** Points on the line `y = a x + b`, not all with the same x, give slope `a` and intercept `b`. */
  lemma CollinearFit(r: LinearRegressionNoLock, a: real, b: real)
    requires r.Valid() && |r.Xs()| >= 2 && M2(r.Xs()) != 0.0
    requires forall i :: 0 <= i < |r.Xs()| ==> r.Ys()[i] == Line(a, r.Xs()[i], b)
    ensures r.Slope() == Num(a) && r.Intercept() == Num(b)
  {
    AffineFit(r.Xs(), r.Ys(), a, b);
    CollinearSlope(r, a);
    InterceptOf(r, a, b);
  }

  lemma InterceptOf(r: LinearRegressionNoLock, a: real, b: real)
    requires r.Valid() && r.Slope() == Num(a) && Mean0(r.Ys()) == Line(a, Mean0(r.Xs()), b)
    ensures r.Intercept() == Num(b)
  {
  }

  lemma CollinearSlope(r: LinearRegressionNoLock, a: real)
    requires r.Valid() && |r.Xs()| >= 2 && M2(r.Xs()) != 0.0
    requires Sxy(r.Xs(), r.Ys()) == Scale(a, M2(r.Xs()))
    ensures r.Slope() == Num(a)
  {
    Cancel(r.Slope().value, M2(r.Xs()), a, Sxy(r.Xs(), r.Ys()));
  }

  lemma Cancel(q: real, b: real, a: real, s: real)
    requires b != 0.0 && q * b == s && s == a * b
    ensures q == a
  {
    assert (q - a) * b == 0.0;
  }

  /** The pairs (4, c+4), (7, c+7), (13, c+13), (16, c+16) give slope 1 and intercept `c`. */
  lemma HighOffsetFit(r: LinearRegressionNoLock, c: real)
    requires r.Valid() && r.Xs() == [4.0, 7.0, 13.0, 16.0] && r.Ys() == Shift(r.Xs(), c)
    ensures r.Count() == 4 && r.Slope() == Num(1.0) && r.Intercept() == Num(c)
  {
    Variance.SpreadExample();
    CollinearFit(r, 1.0, c);
  }

  /** No pairs: no slope, no intercept, no slope through the origin. */
  lemma NoValue(r: LinearRegressionNoLock)
    requires r.Valid() && r.Xs() == []
    ensures r.Count() == 0 && r.Slope().NaN? && r.Intercept().NaN? && r.SlopeThroughOrigin().NaN?
  {
  }

  /** The single pair (2, 6): no slope or intercept, but slope 3 through the origin. */
  lemma SingleValue(r: LinearRegressionNoLock)
    requires r.Valid() && r.Xs() == [2.0] && r.Ys() == [6.0]
    ensures r.Count() == 1 && r.Slope().NaN? && r.Intercept().NaN?
    ensures r.SlopeThroughOrigin() == Num(3.0) && r.SlopeThroughAsWritten(0.0, 0.0) == Num(3.0)
  {
    assert [2.0] == [] + [2.0] && [6.0] == [] + [6.0];
    AppendSum([], 2.0);
    AppendSum([], 6.0);
    AppendDev2([], 2.0, 0.0);
    AppendDev2([], 2.0, 2.0);
    AppendPair([], [], 2.0, 6.0, 0.0, 0.0);
    AppendPair([], [], 2.0, 6.0, 2.0, 6.0);
  }

  /** The pairs (2, 5) and (-2, 25) give slope -5 and intercept 15. */
  lemma TwoValues(r: LinearRegressionNoLock)
    requires r.Valid() && r.Xs() == [2.0, -2.0] && r.Ys() == [5.0, 25.0]
    ensures r.Count() == 2 && r.Slope() == Num(-5.0) && r.Intercept() == Num(15.0)
  {
    Two(2.0, -2.0, 5.0, 25.0, 0.0, 15.0);
    assert Mean0(r.Xs()) == 0.0 && Mean0(r.Ys()) == 15.0;
    assert M2(r.Xs()) == 8.0 && Sxy(r.Xs(), r.Ys()) == -40.0;
  }

  /** The pairs (2, 5) and (4, 25): the x part has mean 3, the y part mean 15. */
  lemma AccessStats(r: LinearRegressionNoLock)
    requires r.Valid() && r.Xs() == [2.0, 4.0] && r.Ys() == [5.0, 25.0]
    ensures r.statsX.Count() == 2 && r.statsY.Count() == 2
    ensures r.statsX.Mean() == Num(3.0) && r.statsY.Mean() == Num(15.0)
  {
    Two(2.0, 4.0, 5.0, 25.0, 0.0, 0.0);
  }

  /**
    (1, 2) and (3, 2): the least-squares slope through the origin is
    (1*2 + 3*2) / (1 + 9) = 4/5, but the source's formula gives
    (0 + 2*2) / (2 + 2^2) = 2/3.
   */
  lemma SlopeThroughCounterexample(r: LinearRegressionNoLock)
    requires r.Valid() && r.Xs() == [1.0, 3.0] && r.Ys() == [2.0, 2.0]
    ensures r.SlopeThroughAsWritten(0.0, 0.0) == Num(2.0 / 3.0)
    ensures r.SlopeThroughOrigin() == Num(4.0 / 5.0)
  {
    Two(1.0, 3.0, 2.0, 2.0, 0.0, 0.0);
    Two(1.0, 3.0, 2.0, 2.0, 2.0, 2.0);
    assert Mean0(r.Xs()) == 2.0 && Mean0(r.Ys()) == 2.0;
    assert M2(r.Xs()) == 2.0 && Sxy(r.Xs(), r.Ys()) == 0.0;
  }
}
