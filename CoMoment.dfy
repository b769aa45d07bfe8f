/**
  The co-moment S_xy = sum of (x - mean x)(y - mean y) of a stream of pairs,
  as the linear regression accumulates and merges it.
 */
module CoMoment {
  import opened Series
  import opened Welford

  // ---------------------------------------------------------------------
  // One update.

  /**
    The covariance update: S_xy grows by `dx * dy`, with `dx` taken against
    the x-mean BEFORE the update and `dy` against the y-mean AFTER it.
   */
  lemma SxyStep(xs: seq<real>, ys: seq<real>, x: real, y: real)
    requires |xs| == |ys|
    ensures Sxy(xs + [x], ys + [y]) == Sxy(xs, ys) + Product(x - Mean0(xs), y - Mean0(ys + [y]))
  {
    var tx := MeanStepDelta(xs, x);
    var ty := MeanStepDelta(ys, y);
    AppendPair(xs, ys, x, y, Mean0(xs + [x]), Mean0(ys + [y]));
    ShiftCross(xs, ys, Mean0(xs + [x]), Mean0(ys + [y]), Mean0(xs), Mean0(ys));
    MeanCentres(xs);
    MeanCentres(ys);
    SxyAlgebra(SumCross(xs + [x], ys + [y], Mean0(xs + [x]), Mean0(ys + [y])),
               SumCross(xs, ys, Mean0(xs + [x]), Mean0(ys + [y])), SumCross(xs, ys, Mean0(xs), Mean0(ys)),
               SumDev(xs, Mean0(xs)), SumDev(ys, Mean0(ys)), |xs| as real,
               x, y, Mean0(xs), Mean0(xs + [x]), Mean0(ys), Mean0(ys + [y]), tx, ty);
  }

  lemma SxyAlgebra(a: real, c: real, s: real, bx: real, yd: real, k: real,
                   x: real, y: real, mx: real, mx1: real, my: real, my1: real, tx: real, ty: real)
    requires MeanDelta(tx, k, x, mx) && mx1 == mx + tx
    requires MeanDelta(ty, k, y, my) && my1 == my + ty
    requires ShiftedCross(c, s, bx, yd, k, mx - mx1, my - my1) && bx == 0.0 && yd == 0.0
    requires a == c + Product(x - mx1, y - my1)
    ensures a == s + Product(x - mx, y - my1)
  {
    assert x - mx1 == k * tx;
    assert y - my1 == k * ty;
    assert c == s + k * tx * ty;
    assert a == s + k * tx * ty + (k * tx) * (k * ty);
  }

  // ---------------------------------------------------------------------
  // Merging two regressions.

  /** The merged co-moment: both S_xy plus the cross term of the mean differences. */
  function MergedSxy(sa: real, sb: real, mxa: real, mxb: real, mya: real, myb: real, na: real, nb: real): real
    requires na + nb != 0.0
  {
    sa + (sb + (mxa - mxb) * (mya - myb) * na * nb / (na + nb))
  }

  lemma SxyMerge(xs: seq<real>, ys: seq<real>, us: seq<real>, vs: seq<real>)
    requires |xs| == |ys| && |us| == |vs| && |xs| + |us| > 0
    ensures Sxy(xs + us, ys + vs)
         == MergedSxy(Sxy(xs, ys), Sxy(us, vs), Mean0(xs), Mean0(us), Mean0(ys), Mean0(vs), |xs| as real, |us| as real)
  {
    MeanMerge(xs, us);
    MeanMerge(ys, vs);
    SumCrossConcat(xs, ys, us, vs, Mean0(xs + us), Mean0(ys + vs));
    ShiftCross(xs, ys, Mean0(xs + us), Mean0(ys + vs), Mean0(xs), Mean0(ys));
    ShiftCross(us, vs, Mean0(xs + us), Mean0(ys + vs), Mean0(us), Mean0(vs));
    MeanCentres(xs);
    MeanCentres(ys);
    MeanCentres(us);
    MeanCentres(vs);
    SxyMergeAlgebra(SumCross(xs + us, ys + vs, Mean0(xs + us), Mean0(ys + vs)),
                    SumCross(xs, ys, Mean0(xs + us), Mean0(ys + vs)), SumCross(us, vs, Mean0(xs + us), Mean0(ys + vs)),
                    Sxy(xs, ys), Sxy(us, vs), SumDev(xs, Mean0(xs)), SumDev(ys, Mean0(ys)),
                    SumDev(us, Mean0(us)), SumDev(vs, Mean0(vs)), |xs| as real, |us| as real,
                    Mean0(xs), Mean0(us), Mean0(ys), Mean0(vs), Mean0(xs + us), Mean0(ys + vs));
  }

  lemma SxyMergeAlgebra(a: real, pa: real, pb: real, sa: real, sb: real,
                        bxa: real, bya: real, bxb: real, byb: real, na: real, nb: real,
                        mxa: real, mxb: real, mya: real, myb: real, mx: real, my: real)
    requires 0.0 < na + nb
    requires mx == MergedMean(mxa, mxb, na, nb) && my == MergedMean(mya, myb, na, nb)
    requires ShiftedCross(pa, sa, bxa, bya, na, mxa - mx, mya - my) && bxa == 0.0 && bya == 0.0
    requires ShiftedCross(pb, sb, bxb, byb, nb, mxb - mx, myb - my) && bxb == 0.0 && byb == 0.0
    requires a == pa + pb
    ensures a == MergedSxy(sa, sb, mxa, mxb, mya, myb, na, nb)
  {
    MergeOffsets(mxa, mxb, na, nb, mx, (mxa - mxb) / (na + nb));
    MergeOffsets(mya, myb, na, nb, my, (mya - myb) / (na + nb));
    MergedSxyAlgebra(a, sa, sb, na, nb, mxa - mxb, mya - myb, (mxa - mxb) / (na + nb), (mya - myb) / (na + nb));
  }

  /** The offsets of the two old means from the merged one. */
  lemma MergeOffsets(ma: real, mb: real, na: real, nb: real, m: real, w: real)
    requires 0.0 < na + nb && m == MergedMean(ma, mb, na, nb) && w == (ma - mb) / (na + nb)
    ensures ma - m == nb * w && mb - m == -(na * w)
  {
    assert (mb - ma) * nb / (na + nb) == -(nb * w);
  }

  lemma MergedSxyAlgebra(a: real, sa: real, sb: real, na: real, nb: real, dx: real, dy: real, wx: real, wy: real)
    requires 0.0 < na + nb && wx == dx / (na + nb) && wy == dy / (na + nb)
    requires a == sa + na * (nb * wx) * (nb * wy) + sb + nb * -(na * wx) * -(na * wy)
    ensures a == sa + (sb + dx * dy * na * nb / (na + nb))
  {
    assert a == sa + sb + na * nb * wx * wy * (na + nb);
    assert dx * dy * na * nb / (na + nb) == na * nb * wx * wy * (na + nb);
  }

  // ---------------------------------------------------------------------
  // No spread in x (or in y) means no co-moment.

  lemma {:induction false} ConstantCross(xs: seq<real>, ys: seq<real>, a: real, b: real)
    requires |xs| == |ys|
    requires (forall i :: 0 <= i < |xs| ==> xs[i] == a) || (forall i :: 0 <= i < |ys| ==> ys[i] == b)
    ensures SumCross(xs, ys, a, b) == 0.0
    decreases |xs|
  {
    if |xs| > 0 {
      ConstantCross(xs[..|xs| - 1], ys[..|ys| - 1], a, b);
    }
  }

  /** S_xy vanishes when either coordinate has M2 zero. */
  lemma FlatCross(xs: seq<real>, ys: seq<real>)
    requires |xs| == |ys| && (M2(xs) == 0.0 || M2(ys) == 0.0)
    ensures Sxy(xs, ys) == 0.0
  {
    if M2(xs) == 0.0 {
      SumDev2Zero(xs, Mean0(xs));
    } else {
      SumDev2Zero(ys, Mean0(ys));
    }
    ConstantCross(xs, ys, Mean0(xs), Mean0(ys));
  }

  // ---------------------------------------------------------------------
  // Exact fits.

  lemma {:induction false} AffineSum(xs: seq<real>, ys: seq<real>, a: real, b: real)
    requires |xs| == |ys| && forall i :: 0 <= i < |xs| ==> ys[i] == Line(a, xs[i], b)
    ensures Sum(ys) == a * Sum(xs) + (|xs| as real) * b
    decreases |xs|
  {
    if |xs| > 0 {
      AffineSum(xs[..|xs| - 1], ys[..|ys| - 1], a, b);
      AffineSumStep(Sum(ys), Sum(ys[..|ys| - 1]), Sum(xs), Sum(xs[..|xs| - 1]),
                    |xs| as real, |xs[..|xs| - 1]| as real, xs[|xs| - 1], ys[|ys| - 1], a, b);
    }
  }

  lemma AffineSumStep(sy: real, syp: real, sx: real, sxp: real, k: real, kp: real, x: real, y: real, a: real, b: real)
    requires syp == a * sxp + kp * b && sy == syp + y && sx == sxp + x && k == kp + 1.0 && y == Line(a, x, b)
    ensures sy == a * sx + k * b
  {
  }

  lemma {:induction false} AffineCross(xs: seq<real>, ys: seq<real>, a: real, b: real, m: real, my: real)
    requires |xs| == |ys| && forall i :: 0 <= i < |xs| ==> ys[i] == Line(a, xs[i], b)
    requires my == Line(a, m, b)
    ensures SumCross(xs, ys, m, my) == Scale(a, SumDev2(xs, m))
    decreases |xs|
  {
    if |xs| > 0 {
      AffineCross(xs[..|xs| - 1], ys[..|ys| - 1], a, b, m, my);
      assert SumCross(xs, ys, m, my)
          == SumCross(xs[..|xs| - 1], ys[..|ys| - 1], m, my) + Product(xs[|xs| - 1] - m, ys[|ys| - 1] - my);
      assert SumDev2(xs, m) == SumDev2(xs[..|xs| - 1], m) + Square(xs[|xs| - 1] - m);
      AffineCrossStep(SumCross(xs, ys, m, my), SumCross(xs[..|xs| - 1], ys[..|ys| - 1], m, my),
                      SumDev2(xs, m), SumDev2(xs[..|xs| - 1], m), xs[|xs| - 1], ys[|ys| - 1], a, b, m, my);
    }
  }

  lemma AffineCrossStep(c: real, cp: real, d: real, dp: real, x: real, y: real, a: real, b: real, m: real, my: real)
    requires cp == Scale(a, dp) && y == Line(a, x, b) && my == Line(a, m, b)
    requires c == cp + Product(x - m, y - my) && d == dp + Square(x - m)
    ensures c == Scale(a, d)
  {
    assert y - my == a * (x - m);
  }

  /** Points on the line `y = a x + b`: the y-mean lies on the line. */
  lemma AffineMean(xs: seq<real>, ys: seq<real>, a: real, b: real)
    requires |xs| == |ys| && |xs| > 0
    requires forall i :: 0 <= i < |xs| ==> ys[i] == Line(a, xs[i], b)
    ensures Mean0(ys) == Line(a, Mean0(xs), b)
  {
    AffineSum(xs, ys, a, b);
    SumIsCountMean(xs);
    AffineMeanAlgebra(Sum(ys), Sum(xs), |xs| as real, Mean0(xs), a, b);
  }

  /** Points on the line `y = a x + b`: S_xy = a M2. */
  lemma AffineFit(xs: seq<real>, ys: seq<real>, a: real, b: real)
    requires |xs| == |ys| && |xs| > 0
    requires forall i :: 0 <= i < |xs| ==> ys[i] == Line(a, xs[i], b)
    ensures Mean0(ys) == Line(a, Mean0(xs), b)
    ensures Sxy(xs, ys) == Scale(a, M2(xs))
  {
    AffineMean(xs, ys, a, b);
    AffineCross(xs, ys, a, b, Mean0(xs), Mean0(ys));
  }

  lemma AffineMeanAlgebra(sy: real, sx: real, k: real, mx: real, a: real, b: real)
    requires 0.0 < k && sx == k * mx && sy == a * sx + k * b
    ensures sy / k == a * mx + b
  {
  }

  // ---------------------------------------------------------------------
  // Sums about an arbitrary point, for the fit through a given point.

  /**
    The cross sum and the sum of squares about `(x0, y0)`, from the ones about
    the means: each grows by `n` times the product of the mean offsets.
   */
  lemma AboutPoint(xs: seq<real>, ys: seq<real>, x0: real, y0: real)
    requires |xs| == |ys|
    ensures SumCross(xs, ys, x0, y0) == Sxy(xs, ys) + Scale(|xs| as real, Product(Mean0(xs) - x0, Mean0(ys) - y0))
    ensures SumDev2(xs, x0) == M2(xs) + Scale(|xs| as real, Square(Mean0(xs) - x0))
  {
    ShiftCross(xs, ys, x0, y0, Mean0(xs), Mean0(ys));
    ShiftDev2(xs, x0, Mean0(xs));
    MeanCentres(xs);
    MeanCentres(ys);
    AboutPointAlgebra(SumCross(xs, ys, x0, y0), Sxy(xs, ys), SumDev2(xs, x0), M2(xs),
                      SumDev(xs, Mean0(xs)), SumDev(ys, Mean0(ys)), |xs| as real, Mean0(xs) - x0, Mean0(ys) - y0);
  }

  lemma AboutPointAlgebra(c: real, s: real, d: real, m2: real, bx: real, yd: real, k: real, p: real, q: real)
    requires ShiftedCross(c, s, bx, yd, k, p, q) && Shifted2(d, m2, bx, k, p) && bx == 0.0 && yd == 0.0
    ensures c == s + Scale(k, Product(p, q)) && d == m2 + Scale(k, Square(p))
  {
  }

  // ---------------------------------------------------------------------
  // Cauchy-Schwarz: S_xy^2 <= M2x * M2y.

  /** The sum of squared residuals of `x - mx` against `t (y - my)`. */
  function Residual2(xs: seq<real>, ys: seq<real>, mx: real, my: real, t: real): (r: real)
    requires |xs| == |ys|
    ensures 0.0 <= r
    decreases |xs|
  {
    if |xs| == 0 then 0.0
    else Residual2(xs[..|xs| - 1], ys[..|ys| - 1], mx, my, t)
         + ResidualTerm(xs[|xs| - 1] - mx, ys[|ys| - 1] - my, t)
  }

  /** The squared residual of one point, `(u - t v)^2`. */
  function ResidualTerm(u: real, v: real, t: real): (r: real)
    ensures 0.0 <= r
  {
    Square(u - t * v)
  }

  /** `a - 2 t c + t^2 b`, the residual sum as a quadratic in the slope `t`. */
  function Quadratic(a: real, c: real, b: real, t: real): real
  {
    a - 2.0 * t * c + t * t * b
  }

  lemma {:induction false} Residual2Expand(xs: seq<real>, ys: seq<real>, mx: real, my: real, t: real)
    requires |xs| == |ys|
    ensures Residual2(xs, ys, mx, my, t) == Quadratic(SumDev2(xs, mx), SumCross(xs, ys, mx, my), SumDev2(ys, my), t)
    decreases |xs|
  {
    if |xs| > 0 {
      Residual2Expand(xs[..|xs| - 1], ys[..|ys| - 1], mx, my, t);
      assert Residual2(xs, ys, mx, my, t) == Residual2(xs[..|xs| - 1], ys[..|ys| - 1], mx, my, t)
                                            + ResidualTerm(xs[|xs| - 1] - mx, ys[|ys| - 1] - my, t);
      assert SumDev2(xs, mx) == SumDev2(xs[..|xs| - 1], mx) + Square(xs[|xs| - 1] - mx);
      assert SumCross(xs, ys, mx, my)
          == SumCross(xs[..|xs| - 1], ys[..|ys| - 1], mx, my) + Product(xs[|xs| - 1] - mx, ys[|ys| - 1] - my);
      assert SumDev2(ys, my) == SumDev2(ys[..|ys| - 1], my) + Square(ys[|ys| - 1] - my);
      assert Residual2(xs[..|xs| - 1], ys[..|ys| - 1], mx, my, t)
          == Quadratic(SumDev2(xs[..|xs| - 1], mx), SumCross(xs[..|xs| - 1], ys[..|ys| - 1], mx, my),
                       SumDev2(ys[..|ys| - 1], my), t);
      ResidualStep(Residual2(xs, ys, mx, my, t), Residual2(xs[..|xs| - 1], ys[..|ys| - 1], mx, my, t),
                   SumDev2(xs, mx), SumDev2(xs[..|xs| - 1], mx), SumCross(xs, ys, mx, my),
                   SumCross(xs[..|xs| - 1], ys[..|ys| - 1], mx, my), SumDev2(ys, my), SumDev2(ys[..|ys| - 1], my),
                   xs[|xs| - 1] - mx, ys[|ys| - 1] - my, t);
    } else {
      QuadraticZero(SumDev2(xs, mx), SumCross(xs, ys, mx, my), SumDev2(ys, my), t);
    }
  }

  lemma QuadraticZero(a: real, c: real, b: real, t: real)
    requires a == 0.0 && c == 0.0 && b == 0.0
    ensures Quadratic(a, c, b, t) == 0.0
  {
  }

  lemma ResidualStep(r: real, rp: real, dx: real, dxp: real, c: real, cp: real, dy: real, dyp: real,
                     u: real, v: real, t: real)
    requires rp == Quadratic(dxp, cp, dyp, t)
    requires r == rp + ResidualTerm(u, v, t)
    requires dx == dxp + Square(u) && c == cp + Product(u, v) && dy == dyp + Square(v)
    ensures r == Quadratic(dx, c, dy, t)
  {
    assert Square(u - t * v) == Square(u) - 2.0 * t * Product(u, v) + t * t * Square(v);
  }

  /** The co-moment is bounded by the geometric mean of the two M2. */
  lemma CauchySchwarz(xs: seq<real>, ys: seq<real>)
    requires |xs| == |ys|
    ensures Sxy(xs, ys) * Sxy(xs, ys) <= M2(xs) * M2(ys)
  {
    SumDev2NonNegative(xs, Mean0(xs));
    if M2(ys) == 0.0 {
      FlatCross(xs, ys);
    } else {
      SumDev2NonNegative(ys, Mean0(ys));
      Residual2Expand(xs, ys, Mean0(xs), Mean0(ys), Sxy(xs, ys) / M2(ys));
      DiscriminantAlgebra(Residual2(xs, ys, Mean0(xs), Mean0(ys), Sxy(xs, ys) / M2(ys)),
                          M2(xs), Sxy(xs, ys), M2(ys), Sxy(xs, ys) / M2(ys));
    }
  }

  lemma DiscriminantAlgebra(r: real, a: real, c: real, b: real, t: real)
    requires 0.0 < b && 0.0 <= r && t == c / b
    requires r == Quadratic(a, c, b, t)
    ensures c * c <= a * b
  {
    assert t * t * b == t * c;
    assert r == a - t * c;
    assert r * b == a * b - c * c;
  }

  // ---------------------------------------------------------------------
  // Least squares: the slope S_xy / M2x minimises the residual sum.

  lemma {:induction false} CrossSymmetric(xs: seq<real>, ys: seq<real>, a: real, b: real)
    requires |xs| == |ys|
    ensures SumCross(ys, xs, b, a) == SumCross(xs, ys, a, b)
    decreases |xs|
  {
    if |xs| > 0 {
      CrossSymmetric(xs[..|xs| - 1], ys[..|ys| - 1], a, b);
    }
  }

  lemma QuadraticMinimum(a: real, c: real, b: real, t0: real, t: real)
    requires 0.0 < b && t0 == c / b
    ensures Quadratic(a, c, b, t0) <= Quadratic(a, c, b, t)
  {
    if t != t0 {
      assert c == t0 * b;
      assert Quadratic(a, c, b, t) - Quadratic(a, c, b, t0) == Product(b, Square(t - t0));
    }
  }

  /**
    Among all lines through the means, the one of slope `S_xy / M2x` has the
    least sum of squared vertical residuals `(y - my) - t (x - mx)`.
   */
  lemma LeastSquares(xs: seq<real>, ys: seq<real>, t: real)
    requires |xs| == |ys| && M2(xs) != 0.0
    ensures Residual2(ys, xs, Mean0(ys), Mean0(xs), Sxy(xs, ys) / M2(xs))
         <= Residual2(ys, xs, Mean0(ys), Mean0(xs), t)
  {
    SumDev2NonNegative(xs, Mean0(xs));
    CrossSymmetric(xs, ys, Mean0(xs), Mean0(ys));
    Residual2Expand(ys, xs, Mean0(ys), Mean0(xs), Sxy(xs, ys) / M2(xs));
    Residual2Expand(ys, xs, Mean0(ys), Mean0(xs), t);
    QuadraticMinimum(M2(ys), Sxy(xs, ys), M2(xs), Sxy(xs, ys) / M2(xs), t);
  }
}
