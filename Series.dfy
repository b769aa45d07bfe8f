/**
  Closed forms of the statistics over a finite stream of samples.

  The accumulators never store their samples; these definitions say what
  their fields mean in terms of the samples seen so far. Every sum is
  defined by peeling off the LAST sample, which is the order in which an
  accumulator sees them.
 */
module Series {

  /** `std::min(a, b)`: `a` unless `b` is smaller. */
  function Min2(a: real, b: real): (r: real)
    ensures r <= a && r <= b
    ensures r == a || r == b
  {
    if b < a then b else a
  }

  /** `std::max(a, b)`: `a` unless `b` is larger. */
  function Max2(a: real, b: real): (r: real)
    ensures r >= a && r >= b
    ensures r == a || r == b
  {
    if a < b then b else a
  }

  /** `a * b`, with the sign rule stated for callers. */
  function Product(a: real, b: real): (r: real)
    ensures (0.0 < a && 0.0 < b) || (a < 0.0 && b < 0.0) ==> 0.0 < r
  {
    a * b
  }

  /** The point of the line `y = a x + b` above `x`. */
  function Line(a: real, x: real, b: real): real { a * x + b }

  /** `a * d`, kept whole so that an induction step matches it as one term. */
  function Scale(a: real, d: real): real { a * d }

  /** `d * d`: never negative, and zero only for `d == 0`. */
  function Square(d: real): (r: real)
    ensures 0.0 <= r
    ensures d != 0.0 ==> 0.0 < r
  {
    Product(d, d)
  }

  /** `d * d * d`. */
  function Cube(d: real): real
  {
    d * d * d
  }

  /** `d * d * d * d`. */
  function Pow4(d: real): real
  {
    d * d * d * d
  }

  /** The smallest sample. */
  function MinOf(xs: seq<real>): real
    requires |xs| > 0
    decreases |xs|
  {
    if |xs| == 1 then xs[0] else Min2(MinOf(xs[..|xs| - 1]), xs[|xs| - 1])
  }

  /** `MinOf` is one of the samples and no sample is below it. */
  lemma {:induction false} MinOfLowest(xs: seq<real>)
    requires |xs| > 0
    ensures MinOf(xs) in xs
    ensures forall i :: 0 <= i < |xs| ==> MinOf(xs) <= xs[i]
    decreases |xs|
  {
    if |xs| > 1 {
      MinOfLowest(xs[..|xs| - 1]);
      assert forall i :: 0 <= i < |xs| - 1 ==> xs[..|xs| - 1][i] == xs[i];
    }
  }

  /** The largest sample. */
  function MaxOf(xs: seq<real>): real
    requires |xs| > 0
    decreases |xs|
  {
    if |xs| == 1 then xs[0] else Max2(MaxOf(xs[..|xs| - 1]), xs[|xs| - 1])
  }

  /** `MaxOf` is one of the samples and no sample is above it. */
  lemma {:induction false} MaxOfHighest(xs: seq<real>)
    requires |xs| > 0
    ensures MaxOf(xs) in xs
    ensures forall i :: 0 <= i < |xs| ==> MaxOf(xs) >= xs[i]
    decreases |xs|
  {
    if |xs| > 1 {
      MaxOfHighest(xs[..|xs| - 1]);
      assert forall i :: 0 <= i < |xs| - 1 ==> xs[..|xs| - 1][i] == xs[i];
    }
  }

  /** The sum of the samples. */
  function Sum(xs: seq<real>): real
    decreases |xs|
  {
    if |xs| == 0 then 0.0 else Sum(xs[..|xs| - 1]) + xs[|xs| - 1]
  }

  /** The arithmetic mean, and 0 for no samples (the accumulators' initial mean). */
  function Mean0(xs: seq<real>): real
  {
    if |xs| == 0 then 0.0 else Sum(xs) / (|xs| as real)
  }

  /** The sum of the deviations from `c`. */
  function SumDev(xs: seq<real>, c: real): real
    decreases |xs|
  {
    if |xs| == 0 then 0.0 else SumDev(xs[..|xs| - 1], c) + (xs[|xs| - 1] - c)
  }

  /** The sum of the squared deviations from `c`. */
  function SumDev2(xs: seq<real>, c: real): real
    decreases |xs|
  {
    if |xs| == 0 then 0.0 else SumDev2(xs[..|xs| - 1], c) + Square(xs[|xs| - 1] - c)
  }

  /** The sum of the cubed deviations from `c`. */
  function SumDev3(xs: seq<real>, c: real): real
    decreases |xs|
  {
    if |xs| == 0 then 0.0 else SumDev3(xs[..|xs| - 1], c) + Cube(xs[|xs| - 1] - c)
  }

  /** The sum of the fourth powers of the deviations from `c`. */
  function SumDev4(xs: seq<real>, c: real): real
    decreases |xs|
  {
    if |xs| == 0 then 0.0 else SumDev4(xs[..|xs| - 1], c) + Pow4(xs[|xs| - 1] - c)
  }

  /** The sum of the products of paired deviations from `a` and `b`. */
  function SumCross(xs: seq<real>, ys: seq<real>, a: real, b: real): real
    requires |xs| == |ys|
    decreases |xs|
  {
    if |xs| == 0 then 0.0
    else SumCross(xs[..|xs| - 1], ys[..|ys| - 1], a, b) + Product(xs[|xs| - 1] - a, ys[|ys| - 1] - b)
  }

  /** Central moments: M2 = sum of (x - mean)^2, and so on. */
  function M2(xs: seq<real>): real { SumDev2(xs, Mean0(xs)) }
  function M3(xs: seq<real>): real { SumDev3(xs, Mean0(xs)) }
  function M4(xs: seq<real>): real { SumDev4(xs, Mean0(xs)) }

  /** The co-moment S_xy = sum of (x - mean x)(y - mean y). */
  function Sxy(xs: seq<real>, ys: seq<real>): real
    requires |xs| == |ys|
  {
    SumCross(xs, ys, Mean0(xs), Mean0(ys))
  }

  // ---------------------------------------------------------------------
  // Sums over concatenated streams.

  lemma {:induction false} SumConcat(xs: seq<real>, ys: seq<real>)
    ensures Sum(xs + ys) == Sum(xs) + Sum(ys)
    decreases |ys|
  {
    if |ys| > 0 {
      assert (xs + ys)[..|xs + ys| - 1] == xs + ys[..|ys| - 1];
      SumConcat(xs, ys[..|ys| - 1]);
    } else {
      assert xs + ys == xs;
    }
  }

  lemma {:induction false} SumDev2Concat(xs: seq<real>, ys: seq<real>, c: real)
    ensures SumDev2(xs + ys, c) == SumDev2(xs, c) + SumDev2(ys, c)
    decreases |ys|
  {
    if |ys| > 0 {
      assert (xs + ys)[..|xs + ys| - 1] == xs + ys[..|ys| - 1];
      SumDev2Concat(xs, ys[..|ys| - 1], c);
    } else {
      assert xs + ys == xs;
    }
  }

  lemma {:induction false} SumCrossConcat(xs: seq<real>, ys: seq<real>, us: seq<real>, vs: seq<real>, a: real, b: real)
    requires |xs| == |ys| && |us| == |vs|
    ensures SumCross(xs + us, ys + vs, a, b) == SumCross(xs, ys, a, b) + SumCross(us, vs, a, b)
    decreases |us|
  {
    if |us| > 0 {
      assert (xs + us)[..|xs + us| - 1] == xs + us[..|us| - 1];
      assert (ys + vs)[..|ys + vs| - 1] == ys + vs[..|vs| - 1];
      SumCrossConcat(xs, ys, us[..|us| - 1], vs[..|vs| - 1], a, b);
    } else {
      assert xs + us == xs && ys + vs == ys;
    }
  }

  // Appending one sample: the defining equations, stated for `xs + [x]`.

  lemma AppendSum(xs: seq<real>, x: real)
    ensures Sum(xs + [x]) == Sum(xs) + x
  {
    assert (xs + [x])[..|xs|] == xs;
  }

  lemma AppendDev(xs: seq<real>, x: real, c: real)
    ensures SumDev(xs + [x], c) == SumDev(xs, c) + (x - c)
  {
    assert (xs + [x])[..|xs|] == xs;
  }

  lemma AppendDev2(xs: seq<real>, x: real, c: real)
    ensures SumDev2(xs + [x], c) == SumDev2(xs, c) + Square(x - c)
  {
    assert (xs + [x])[..|xs|] == xs;
  }

  lemma AppendDev3(xs: seq<real>, x: real, c: real)
    ensures SumDev3(xs + [x], c) == SumDev3(xs, c) + Cube(x - c)
  {
    assert (xs + [x])[..|xs|] == xs;
  }

  lemma AppendDev4(xs: seq<real>, x: real, c: real)
    ensures SumDev4(xs + [x], c) == SumDev4(xs, c) + Pow4(x - c)
  {
    assert (xs + [x])[..|xs|] == xs;
  }

  lemma AppendPair(xs: seq<real>, ys: seq<real>, x: real, y: real, a: real, b: real)
    requires |xs| == |ys|
    ensures SumCross(xs + [x], ys + [y], a, b) == SumCross(xs, ys, a, b) + Product(x - a, y - b)
  {
    assert (xs + [x])[..|xs|] == xs;
    assert (ys + [y])[..|ys|] == ys;
  }

  // ---------------------------------------------------------------------
  // Moving the centre of a sum of deviations.

  lemma {:induction false} SumDevLinear(xs: seq<real>, c: real)
    ensures SumDev(xs, c) == Sum(xs) - (|xs| as real) * c
    decreases |xs|
  {
    if |xs| > 0 {
      SumDevLinear(xs[..|xs| - 1], c);
    }
  }

  /** Deviations from the mean sum to zero. */
  lemma MeanCentres(xs: seq<real>)
    ensures SumDev(xs, Mean0(xs)) == 0.0
  {
    SumDevLinear(xs, Mean0(xs));
  }

  /** `a` is the sum of squared deviations from `c`, given those from `m = c + v`. */
  ghost predicate Shifted2(a: real, b2: real, b1: real, k: real, v: real)
  {
    a == b2 + 2.0 * v * b1 + k * v * v
  }

  /** `a` is the sum of cubed deviations from `c`, given those from `m = c + v`. */
  ghost predicate Shifted3(a: real, b3: real, b2: real, b1: real, k: real, v: real)
  {
    a == b3 + 3.0 * v * b2 + 3.0 * v * v * b1 + k * v * v * v
  }

  /** `a` is the sum of fourth-power deviations from `c`, given those from `m = c + v`. */
  ghost predicate Shifted4(a: real, b4: real, b3: real, b2: real, b1: real, k: real, v: real)
  {
    a == b4 + 4.0 * v * b3 + 6.0 * v * v * b2 + 4.0 * v * v * v * b1 + k * v * v * v * v
  }

  lemma {:induction false} ShiftDev2(xs: seq<real>, c: real, m: real)
    ensures Shifted2(SumDev2(xs, c), SumDev2(xs, m), SumDev(xs, m), |xs| as real, m - c)
    decreases |xs|
  {
    if |xs| > 0 {
      var p, x := xs[..|xs| - 1], xs[|xs| - 1];
      assert xs == p + [x];
      AppendDev2(p, x, c);
      AppendDev2(p, x, m);
      AppendDev(p, x, m);
      ShiftDev2(p, c, m);
      Shift2Step(SumDev2(xs, c), SumDev2(p, c), SumDev2(xs, m), SumDev2(p, m),
                 SumDev(xs, m), SumDev(p, m), |xs| as real, |p| as real, x, m, c);
    }
  }

  lemma {:induction false} ShiftDev3(xs: seq<real>, c: real, m: real)
    ensures Shifted3(SumDev3(xs, c), SumDev3(xs, m), SumDev2(xs, m), SumDev(xs, m), |xs| as real, m - c)
    decreases |xs|
  {
    if |xs| > 0 {
      var p, x := xs[..|xs| - 1], xs[|xs| - 1];
      assert xs == p + [x];
      AppendDev3(p, x, c);
      AppendDev3(p, x, m);
      AppendDev2(p, x, m);
      AppendDev(p, x, m);
      ShiftDev3(p, c, m);
      Shift3Step(SumDev3(xs, c), SumDev3(p, c), SumDev3(xs, m), SumDev3(p, m), SumDev2(xs, m), SumDev2(p, m),
                 SumDev(xs, m), SumDev(p, m), |xs| as real, |p| as real, x, m, c);
    }
  }

  lemma {:induction false} ShiftDev4(xs: seq<real>, c: real, m: real)
    ensures Shifted4(SumDev4(xs, c), SumDev4(xs, m), SumDev3(xs, m), SumDev2(xs, m), SumDev(xs, m),
                     |xs| as real, m - c)
    decreases |xs|
  {
    if |xs| > 0 {
      var p, x := xs[..|xs| - 1], xs[|xs| - 1];
      assert xs == p + [x];
      AppendDev4(p, x, c);
      AppendDev4(p, x, m);
      AppendDev3(p, x, m);
      AppendDev2(p, x, m);
      AppendDev(p, x, m);
      ShiftDev4(p, c, m);
      Shift4Step(SumDev4(xs, c), SumDev4(p, c), SumDev4(xs, m), SumDev4(p, m), SumDev3(xs, m), SumDev3(p, m),
                 SumDev2(xs, m), SumDev2(p, m), SumDev(xs, m), SumDev(p, m), |xs| as real, |p| as real, x, m, c);
    }
  }

  /** `a` is the cross sum about `(c, d)`, given the one about `(c + p, d + q)`. */
  ghost predicate ShiftedCross(a: real, bxy: real, bx: real, yd: real, k: real, p: real, q: real)
  {
    a == bxy + q * bx + p * yd + k * p * q
  }

  lemma {:induction false} ShiftCross(xs: seq<real>, ys: seq<real>, a: real, b: real, ma: real, mb: real)
    requires |xs| == |ys|
    ensures ShiftedCross(SumCross(xs, ys, a, b), SumCross(xs, ys, ma, mb), SumDev(xs, ma), SumDev(ys, mb),
                         |xs| as real, ma - a, mb - b)
    decreases |xs|
  {
    if |xs| > 0 {
      var xp, yp := xs[..|xs| - 1], ys[..|ys| - 1];
      ShiftCross(xp, yp, a, b, ma, mb);
      CrossStep(SumCross(xs, ys, a, b), SumCross(xp, yp, a, b), SumCross(xs, ys, ma, mb), SumCross(xp, yp, ma, mb),
                SumDev(xs, ma), SumDev(xp, ma), SumDev(ys, mb), SumDev(yp, mb), |xs| as real, |xp| as real,
                xs[|xs| - 1], ys[|ys| - 1], a, b, ma, mb);
    }
  }

  // The polynomial identities behind one step of the shifts above.

  lemma Binomial2(u: real, v: real)
    ensures Square(u + v) == Square(u) + 2.0 * v * u + Square(v)
  {
  }

  /** One step of ShiftDev2: the sums for `p + [x]` from those for `p` (primed names). */
  lemma Shift2Step(a2: real, a2p: real, b2: real, b2p: real, b1: real, b1p: real,
                   k: real, kp: real, x: real, m: real, c: real)
    requires Shifted2(a2p, b2p, b1p, kp, m - c)
    requires a2 == a2p + Square(x - c)
    requires b2 == b2p + Square(x - m)
    requires b1 == b1p + (x - m)
    requires k == kp + 1.0
    ensures Shifted2(a2, b2, b1, k, m - c)
  {
    Binomial2(x - m, m - c);
  }

  /** One step of ShiftCross, as Shift2Step. */
  lemma CrossStep(c: real, cp: real, bxy: real, bxyp: real, bx: real, bxp: real, yd: real, byp: real,
                  k: real, kp: real, x: real, y: real, a: real, b: real, ma: real, mb: real)
    requires ShiftedCross(cp, bxyp, bxp, byp, kp, ma - a, mb - b)
    requires c == cp + Product(x - a, y - b)
    requires bxy == bxyp + Product(x - ma, y - mb)
    requires bx == bxp + (x - ma)
    requires yd == byp + (y - mb)
    requires k == kp + 1.0
    ensures ShiftedCross(c, bxy, bx, yd, k, ma - a, mb - b)
  {
    var u, v, p, q := x - ma, y - mb, ma - a, mb - b;
    assert (x - a) * (y - b) == (u + p) * (v + q) == u * v + q * u + p * v + p * q;
  }

  /** One step of ShiftDev3, as Shift2Step. */
  lemma Shift3Step(a3: real, a3p: real, b3: real, b3p: real, b2: real, b2p: real, b1: real, b1p: real,
                   k: real, kp: real, x: real, m: real, c: real)
    requires Shifted3(a3p, b3p, b2p, b1p, kp, m - c)
    requires a3 == a3p + Cube(x - c)
    requires b3 == b3p + Cube(x - m)
    requires b2 == b2p + Square(x - m)
    requires b1 == b1p + (x - m)
    requires k == kp + 1.0
    ensures Shifted3(a3, b3, b2, b1, k, m - c)
  {
    Cube3Step(a3, a3p, b3, b3p, b2, b2p, b1, b1p, k, kp, x, m, c);
  }

  lemma Cube3Step(a3: real, a3p: real, b3: real, b3p: real, b2: real, b2p: real, b1: real, b1p: real,
                  k: real, kp: real, x: real, m: real, c: real)
    requires a3p == b3p + 3.0 * (m - c) * b2p + 3.0 * (m - c) * (m - c) * b1p + kp * (m - c) * (m - c) * (m - c)
    requires a3 == a3p + (x - c) * (x - c) * (x - c)
    requires b3 == b3p + (x - m) * (x - m) * (x - m)
    requires b2 == b2p + (x - m) * (x - m)
    requires b1 == b1p + (x - m)
    requires k == kp + 1.0
    ensures a3 == b3 + 3.0 * (m - c) * b2 + 3.0 * (m - c) * (m - c) * b1 + k * (m - c) * (m - c) * (m - c)
  {
    var u, v := x - m, m - c;
    assert x - c == u + v;
    assert (u + v) * (u + v) * (u + v) == u * u * u + 3.0 * v * (u * u) + 3.0 * v * v * u + v * v * v;
  }

  /** One step of ShiftDev4, as Shift3Step. */
  lemma Shift4Step(a4: real, a4p: real, b4: real, b4p: real, b3: real, b3p: real, b2: real, b2p: real,
                   b1: real, b1p: real, k: real, kp: real, x: real, m: real, c: real)
    requires Shifted4(a4p, b4p, b3p, b2p, b1p, kp, m - c)
    requires a4 == a4p + Pow4(x - c)
    requires b4 == b4p + Pow4(x - m)
    requires b3 == b3p + Cube(x - m)
    requires b2 == b2p + Square(x - m)
    requires b1 == b1p + (x - m)
    requires k == kp + 1.0
    ensures Shifted4(a4, b4, b3, b2, b1, k, m - c)
  {
    Quartic4Step(a4, a4p, b4, b4p, b3, b3p, b2, b2p, b1, b1p, k, kp, x, m, c);
  }

  lemma Quartic4Step(a4: real, a4p: real, b4: real, b4p: real, b3: real, b3p: real, b2: real, b2p: real,
                     b1: real, b1p: real, k: real, kp: real, x: real, m: real, c: real)
    requires a4p == b4p + 4.0 * (m - c) * b3p + 6.0 * (m - c) * (m - c) * b2p
                    + 4.0 * (m - c) * (m - c) * (m - c) * b1p + kp * (m - c) * (m - c) * (m - c) * (m - c)
    requires a4 == a4p + (x - c) * (x - c) * (x - c) * (x - c)
    requires b4 == b4p + (x - m) * (x - m) * (x - m) * (x - m)
    requires b3 == b3p + (x - m) * (x - m) * (x - m)
    requires b2 == b2p + (x - m) * (x - m)
    requires b1 == b1p + (x - m)
    requires k == kp + 1.0
    ensures a4 == b4 + 4.0 * (m - c) * b3 + 6.0 * (m - c) * (m - c) * b2
                  + 4.0 * (m - c) * (m - c) * (m - c) * b1 + k * (m - c) * (m - c) * (m - c) * (m - c)
  {
    var u, v := x - m, m - c;
    assert x - c == u + v;
    assert (u + v) * (u + v) * (u + v) * (u + v)
        == u * u * u * u + 4.0 * v * (u * u * u) + 6.0 * v * v * (u * u) + 4.0 * v * v * v * u + v * v * v * v;
  }

  // ---------------------------------------------------------------------
  // Sums of squares: non-negative, and zero only for a constant stream.

  /** The sums of a two-pair stream, written out. */
  lemma Two(a: real, b: real, c: real, d: real, mx: real, my: real)
    ensures Sum([a, b]) == a + b && Sum([c, d]) == c + d
    ensures SumDev2([a, b], mx) == Square(a - mx) + Square(b - mx)
    ensures SumCross([a, b], [c, d], mx, my) == Product(a - mx, c - my) + Product(b - mx, d - my)
  {
    assert [a, b] == [a] + [b] && [c, d] == [c] + [d];
    assert [a] == [] + [a] && [c] == [] + [c];
    AppendSum([], a);
    AppendSum([a], b);
    AppendSum([], c);
    AppendSum([c], d);
    AppendDev2([], a, mx);
    AppendDev2([a], b, mx);
    AppendPair([], [], a, c, mx, my);
    AppendPair([a], [c], b, d, mx, my);
  }

  /** The sum and the squared deviations of a four-sample stream, written out. */
  lemma Four(a: real, b: real, c: real, d: real, m: real)
    ensures Sum([a, b, c, d]) == a + b + c + d
    ensures SumDev2([a, b, c, d], m) == Square(a - m) + Square(b - m) + Square(c - m) + Square(d - m)
  {
    assert [a, b, c, d] == [a, b, c] + [d];
    assert [a, b, c] == [a, b] + [c];
    assert [a, b] == [a] + [b];
    assert [a] == [] + [a];
    AppendSum([], a);
    AppendSum([a], b);
    AppendSum([a, b], c);
    AppendSum([a, b, c], d);
    AppendDev2([], a, m);
    AppendDev2([a], b, m);
    AppendDev2([a, b], c, m);
    AppendDev2([a, b, c], d, m);
  }

  lemma {:induction false} SumDev2NonNegative(xs: seq<real>, c: real)
    ensures SumDev2(xs, c) >= 0.0
    decreases |xs|
  {
    if |xs| > 0 {
      SumDev2NonNegative(xs[..|xs| - 1], c);
    }
  }

  lemma {:induction false} SumDev2Positive(xs: seq<real>, c: real, i: nat)
    requires i < |xs| && xs[i] != c
    ensures SumDev2(xs, c) > 0.0
    decreases |xs|
  {
    var p := xs[..|xs| - 1];
    SumDev2NonNegative(p, c);
    if i < |xs| - 1 {
      assert p[i] == xs[i];
      SumDev2Positive(p, c, i);
    }
  }

  /** A zero sum of squares means every sample equals the centre. */
  lemma SumDev2Zero(xs: seq<real>, c: real)
    requires SumDev2(xs, c) == 0.0
    ensures forall i :: 0 <= i < |xs| ==> xs[i] == c
  {
    forall i | 0 <= i < |xs|
      ensures xs[i] == c
    {
      if xs[i] != c {
        SumDev2Positive(xs, c, i);
      }
    }
  }
}
