/**
  `Snapshot`: a sorted copy of a range of samples, with quantile lookup by
  linear interpolation between neighbouring order statistics and a count of
  the samples per bin.
 */
module Snapshot {
  import opened Series

  predicate Sorted(s: seq<real>)
  {
    forall i, j :: 0 <= i < j < |s| ==> s[i] <= s[j]
  }

  /**
    Two ascending sequences with the same elements are equal: the sorted
    copy of a range is determined by the range alone.
   */
  lemma {:induction false} SortedUnique(a: seq<real>, b: seq<real>)
    requires Sorted(a) && Sorted(b) && multiset(a) == multiset(b)
    ensures a == b
  {
    assert |a| == |multiset(a)| == |multiset(b)| == |b|;
    if |a| > 0 {
      SortedHeadLowest(a, b[0]);
      SortedHeadLowest(b, a[0]);
      SameTails(a, b);
      SortedTail(a);
      SortedTail(b);
      SortedUnique(a[1..], b[1..]);
      SameHeadTail(a, b);
    }
  }

  /** Removing equal first elements from sequences with the same elements leaves the same elements. */
  lemma SameTails(a: seq<real>, b: seq<real>)
    requires 0 < |a| && 0 < |b| && a[0] == b[0] && multiset(a) == multiset(b)
    ensures multiset(a[1..]) == multiset(b[1..])
  {
    assert a == [a[0]] + a[1..];
    assert b == [b[0]] + b[1..];
    calc {
      multiset(a[1..]);
      multiset(a) - multiset{a[0]};
      multiset(b) - multiset{b[0]};
      multiset(b[1..]);
    }
  }

  lemma SameHeadTail(a: seq<real>, b: seq<real>)
    requires 0 < |a| && 0 < |b| && a[0] == b[0] && a[1..] == b[1..]
    ensures a == b
  {
    assert a == [a[0]] + a[1..] && b == [b[0]] + b[1..];
  }

  lemma SortedHeadLowest(a: seq<real>, x: real)
    requires Sorted(a) && x in multiset(a)
    ensures a[0] <= x
  {
    var i :| 0 <= i < |a| && a[i] == x;
    assert a[0] <= a[i] || i == 0;
  }

  lemma SortedTail(a: seq<real>)
    requires Sorted(a) && 0 < |a|
    ensures Sorted(a[1..])
  {
    forall i, j | 0 <= i < j < |a| - 1
      ensures a[1..][i] <= a[1..][j]
    {
      assert a[1..][i] == a[i + 1] && a[1..][j] == a[j + 1];
    }
  }

  /**
    Sorts `a` ascending in place by insertion, as `std::sort` leaves the
    copied range: each element in turn is moved into the sorted prefix
    before it.
   */
  method InsertionSort(a: array<real>)
    modifies a
    ensures Sorted(a[..])
    ensures multiset(a[..]) == multiset(old(a[..]))
  {
    var i := 0;
    while i < a.Length
      invariant 0 <= i <= a.Length
      invariant Sorted(a[..i])
      invariant multiset(a[..]) == multiset(old(a[..]))
    {
      Insert(a, i);
      i := i + 1;
    }
    assert a[..] == a[..a.Length];
  }

  /** Swaps `a[i]` leftwards past the larger elements of the sorted prefix `a[..i]`. */
  method Insert(a: array<real>, i: nat)
    modifies a
    requires i < a.Length && Sorted(a[..i])
    ensures Sorted(a[..i + 1])
    ensures multiset(a[..]) == multiset(old(a[..]))
  {
    var j := i;
    InsertStart(a[..], i);
    while 0 < j && a[j] < a[j - 1]
      invariant 0 <= j <= i
      invariant forall k, l :: 0 <= k < l <= i && k != j && l != j ==> a[k] <= a[l]
      invariant forall l :: j < l <= i ==> a[j] < a[l]
      invariant multiset(a[..]) == multiset(old(a[..]))
    {
      a[j - 1], a[j] := a[j], a[j - 1];
      j := j - 1;
    }
    InsertDone(a[..], i, j);
  }

  /** Before any swap, the prefix is sorted apart from the new element at `i`. */
  lemma InsertStart(s: seq<real>, i: nat)
    requires i < |s| && Sorted(s[..i])
    ensures forall k, l :: 0 <= k < l <= i && k != i && l != i ==> s[k] <= s[l]
  {
    forall k, l | 0 <= k < l <= i && k != i && l != i
      ensures s[k] <= s[l]
    {
      assert s[k] == s[..i][k] && s[l] == s[..i][l];
    }
  }

  /** Once the element at `j` is no smaller than its left neighbour, the prefix up to `i` is sorted. */
  lemma InsertDone(s: seq<real>, i: nat, j: nat)
    requires j <= i < |s|
    requires forall k, l :: 0 <= k < l <= i && k != j && l != j ==> s[k] <= s[l]
    requires forall l :: j < l <= i ==> s[j] < s[l]
    requires j == 0 || s[j - 1] <= s[j]
    ensures Sorted(s[..i + 1])
  {
    var t := s[..i + 1];
    forall k, l | 0 <= k < l < |t|
      ensures t[k] <= t[l]
    {
      if 0 < j && k < j && l == j {
        assert s[k] <= s[j - 1] || k == j - 1;
      }
    }
  }

  /** The result of `getValue`: a value, or the `invalid_argument` exception. */
  datatype Lookup = Value(value: real) | InvalidArgument

  /** `pos = quantile * maxIndex`; inside [0, maxIndex] for a quantile in [0, 1]. */
  function Position(quantile: real, maxIndex: nat): (r: real)
    requires 0.0 <= quantile <= 1.0
    ensures 0.0 <= r <= maxIndex as real
    ensures quantile == 0.0 ==> r == 0.0
    ensures quantile == 1.0 ==> r == maxIndex as real
  {
    FractionOf(quantile, maxIndex as real);
    Product(quantile, maxIndex as real)
  }

  /** `lower + f (upper - lower)`: between the two ends for a fraction `f` in [0, 1]. */
  function Interpolate(lower: real, upper: real, f: real): (r: real)
    requires 0.0 <= f <= 1.0 && lower <= upper
    ensures lower <= r <= upper
    ensures f == 0.0 ==> r == lower
  {
    FractionOf(f, upper - lower);
    lower + Product(f, upper - lower)
  }

  /** A fraction in [0, 1] of a non-negative `d` lies in [0, d]. */
  lemma FractionOf(f: real, d: real)
    requires 0.0 <= f <= 1.0 && 0.0 <= d
    ensures 0.0 <= Product(f, d) <= d
  {
    var g := 1.0 - f;
    assert d - Product(f, d) == Product(g, d);
  }

  /** Where `x` falls in [min, min + width), scaled to [0, noBins): `noBins (x - min) / width`. */
  function Ratio(noBins: nat, min: real, width: real, x: real): real
    requires width != 0.0
  {
    (noBins as real) * (x - min) / width
  }

  /** The bin of `x` before clamping: `floor(noBins (x - min) / width)`. */
  function RawBin(noBins: nat, min: real, width: real, x: real): int
    requires width != 0.0
  {
    Ratio(noBins, min, width, x).Floor
  }

  /** The bin `getBins` counts `x` in: the raw bin clamped into [0, noBins - 1]. */
  function BinIndex(noBins: nat, min: real, width: real, x: real): (r: nat)
    requires noBins > 0 && width != 0.0
    ensures r < noBins
    ensures 0 <= RawBin(noBins, min, width, x) < noBins ==> r == RawBin(noBins, min, width, x)
    ensures RawBin(noBins, min, width, x) < 0 ==> r == 0
    ensures noBins <= RawBin(noBins, min, width, x) ==> r == noBins - 1
  {
    var raw := RawBin(noBins, min, width, x);
    if raw < 0 then 0 else if raw >= noBins then noBins - 1 else raw
  }

  /** The counters after counting `xs` in order, one increment per sample. */
  function Counts(xs: seq<real>, noBins: nat, min: real, width: real): (r: seq<nat>)
    requires (noBins > 0 || |xs| == 0) && width != 0.0
    ensures |r| == noBins
  {
    if |xs| == 0 then seq(noBins, b => 0)
    else
      var c := Counts(xs[..|xs| - 1], noBins, min, width);
      var b := BinIndex(noBins, min, width, xs[|xs| - 1]);
      c[b := c[b] + 1]
  }

  /** Counting one more sample of `xs` bumps the counter of its bin. */
  lemma CountsStep(xs: seq<real>, i: nat, noBins: nat, min: real, width: real)
    requires i < |xs| && noBins > 0 && width != 0.0
    ensures var c := Counts(xs[..i], noBins, min, width);
            var b := BinIndex(noBins, min, width, xs[i]);
            Counts(xs[..i + 1], noBins, min, width) == c[b := c[b] + 1]
  {
    assert xs[..i + 1][..i] == xs[..i];
  }

  /** The number of samples of `xs` whose bin is `b`. */
  function Hits(xs: seq<real>, noBins: nat, min: real, width: real, b: nat): nat
    requires noBins > 0 && width != 0.0
  {
    if |xs| == 0 then 0
    else Hits(xs[..|xs| - 1], noBins, min, width, b) + (if BinIndex(noBins, min, width, xs[|xs| - 1]) == b then 1 else 0)
  }

  function Total(s: seq<nat>): nat
  {
    if |s| == 0 then 0 else Total(s[..|s| - 1]) + s[|s| - 1]
  }

  lemma {:induction false} TotalBump(s: seq<nat>, k: nat)
    requires k < |s|
    ensures Total(s[k := s[k] + 1]) == Total(s) + 1
  {
    var t := s[k := s[k] + 1];
    if k < |s| - 1 {
      assert t[..|t| - 1] == s[..|s| - 1][k := s[k] + 1];
      TotalBump(s[..|s| - 1], k);
    } else {
      assert t[..|t| - 1] == s[..|s| - 1];
    }
  }

  lemma {:induction false} TotalZeros(n: nat)
    ensures Total(seq(n, b => 0)) == 0
  {
    if n > 0 {
      assert seq(n, b => 0)[..n - 1] == seq(n - 1, b => 0);
      TotalZeros(n - 1);
    }
  }

  /** Every sample lands in exactly one bin: the counters add up to the number of samples. */
  lemma {:induction false} CountsTotal(xs: seq<real>, noBins: nat, min: real, width: real)
    requires (noBins > 0 || |xs| == 0) && width != 0.0
    ensures Total(Counts(xs, noBins, min, width)) == |xs|
  {
    if |xs| == 0 {
      TotalZeros(noBins);
    } else {
      CountsTotal(xs[..|xs| - 1], noBins, min, width);
      TotalBump(Counts(xs[..|xs| - 1], noBins, min, width), BinIndex(noBins, min, width, xs[|xs| - 1]));
    }
  }

  /** Counter `b` holds the number of samples whose bin is `b`. */
  lemma {:induction false} CountsAreHits(xs: seq<real>, noBins: nat, min: real, width: real, b: nat)
    requires noBins > 0 && width != 0.0 && b < noBins
    ensures Counts(xs, noBins, min, width)[b] == Hits(xs, noBins, min, width, b)
  {
    if |xs| > 0 {
      CountsAreHits(xs[..|xs| - 1], noBins, min, width, b);
    }
  }

  /** Where `noBins (x - min) / width` falls, for a positive width, by where `x` falls. */
  lemma RatioBounds(noBins: nat, min: real, width: real, x: real)
    requires 0 < noBins && 0.0 < width
    ensures x < min ==> Ratio(noBins, min, width, x) < 0.0
    ensures min + width <= x ==> noBins as real <= Ratio(noBins, min, width, x)
    ensures min <= x < min + width ==> 0.0 <= Ratio(noBins, min, width, x) < noBins as real
    ensures Ratio(noBins, min, width, x) * (width / noBins as real) == x - min
  {
    var n, d, w := noBins as real, x - min, width;
    assert Ratio(noBins, min, width, x) == n * d / w;
    assert Product(n * d / w, w) == Product(n, d);
    assert n - n * d / w == Product(n, w - d) / w;
    assert -(n * d / w) == Product(n, -d) / w;
  }

  /** The floor of `t` compared with 0 and `n`, as `t` compares with them. */
  lemma FloorBounds(t: real, n: nat)
    ensures t < 0.0 ==> t.Floor < 0
    ensures n as real <= t ==> n <= t.Floor
    ensures 0.0 <= t < n as real ==> 0 <= t.Floor < n
    ensures t.Floor as real <= t < t.Floor as real + 1.0
  {
  }

  /**
    For a positive width, a sample inside [min, min + width) lands in the bin
    whose sub-interval of length width/noBins holds it.
   */
  lemma BinHolds(noBins: nat, min: real, width: real, x: real)
    requires noBins > 0 && 0.0 < width && min <= x < min + width
    ensures var b := BinIndex(noBins, min, width, x) as real;
            min + Scale(b, width / noBins as real) <= x < min + Scale(b + 1.0, width / noBins as real)
  {
    RatioBounds(noBins, min, width, x);
    FloorBounds(Ratio(noBins, min, width, x), noBins);
    assert 0.0 < width / noBins as real;
    SubInterval(Ratio(noBins, min, width, x), RawBin(noBins, min, width, x) as real, width / noBins as real);
  }

  /** `b u <= t u < (b + 1) u` for `b <= t < b + 1` and a positive `u`. */
  lemma SubInterval(t: real, b: real, u: real)
    requires b <= t < b + 1.0 && 0.0 < u
    ensures Scale(b, u) <= Scale(t, u) < Scale(b + 1.0, u)
  {
    assert Scale(t, u) - Scale(b, u) == Product(t - b, u);
    assert Scale(b + 1.0, u) - Scale(t, u) == Product(b + 1.0 - t, u);
  }

  /** For a positive width, samples below `min` count in the first bin and those at or above `min + width` in the last. */
  lemma BinClamped(noBins: nat, min: real, width: real, x: real)
    requires noBins > 0 && 0.0 < width
    ensures x < min ==> BinIndex(noBins, min, width, x) == 0
    ensures min + width <= x ==> BinIndex(noBins, min, width, x) == noBins - 1
  {
    RatioBounds(noBins, min, width, x);
    FloorBounds(Ratio(noBins, min, width, x), noBins);
  }

  class Snapshot {
    /** The samples, ascending. */
    const snapshot: seq<real>

    ghost predicate Valid()
    {
      Sorted(snapshot)
    }

    /** Copies `samples` (the range [begin, end)) and sorts the copy. */
    constructor (samples: seq<real>)
      ensures Valid() && multiset(snapshot) == multiset(samples)
    {
      var a := new real[|samples|](i requires 0 <= i < |samples| => samples[i]);
      assert a[..] == samples;
      InsertionSort(a);
      snapshot := a[..];
    }

    /** The number of samples, that of the copied range. */
    function Size(): (r: nat)
      ensures r == |snapshot| == |multiset(snapshot)|
    {
      |snapshot|
    }

    /** The samples ascending, and no other ordering of the same samples is. */
    function Values(): (r: seq<real>)
      requires Valid()
      ensures Sorted(r) && multiset(r) == multiset(snapshot)
      ensures forall s :: Sorted(s) && multiset(s) == multiset(snapshot) ==> s == r
    {
      assert forall s :: Sorted(s) && multiset(s) == multiset(snapshot) ==> s == snapshot by {
        forall s | Sorted(s) && multiset(s) == multiset(snapshot) {
          SortedUnique(s, snapshot);
        }
      }
      snapshot
    }

    /**
      The `quantile` of the samples: an error outside [0, 1], 0 without
      samples, the last sample when `pos = quantile (size - 1)` reaches the
      last index, otherwise the interpolation between the samples at
      `floor(pos)` and `floor(pos) + 1` by the fractional part of `pos`.
     */
    function GetValue(quantile: real): (r: Lookup)
      requires Valid()
      ensures r.InvalidArgument? <==> quantile < 0.0 || 1.0 < quantile
      ensures r.Value? && |snapshot| == 0 ==> r.value == 0.0
      ensures r.Value? && 0 < |snapshot| ==> snapshot[0] <= r.value <= snapshot[|snapshot| - 1]
      ensures quantile == 0.0 && 0 < |snapshot| ==> r == Value(snapshot[0])
      ensures quantile == 1.0 && 0 < |snapshot| ==> r == Value(snapshot[|snapshot| - 1])
      ensures r.Value? && 0 < |snapshot| ==>
                var pos := Position(quantile, |snapshot| - 1);
                && snapshot[pos.Floor] <= r.value
                && (pos.Floor < |snapshot| - 1 ==> r.value <= snapshot[pos.Floor + 1])
                && (pos == pos.Floor as real ==> r.value == snapshot[pos.Floor])
    {
      if quantile < 0.0 || quantile > 1.0 then InvalidArgument
      else if |snapshot| == 0 then Value(0.0)
      else
        var maxIndex := |snapshot| - 1;
        var pos := Position(quantile, maxIndex);
        if pos >= maxIndex as real then Value(snapshot[maxIndex])
        else
          var lower := pos.Floor;
          Value(Interpolate(snapshot[lower], snapshot[lower + 1], pos - lower as real))
    }

    /**
      `getBins`: one counter per bin, each sample counted once in the bin
      `BinIndex` gives it. `noBins` may be 0 only without samples.
     */
    method GetBins(noBins: nat, min: real, width: real) returns (bins: seq<nat>)
      requires (noBins > 0 || |snapshot| == 0) && width != 0.0
      ensures bins == Counts(snapshot, noBins, min, width)
      ensures |bins| == noBins && Total(bins) == Size()
    {
      var counters := new nat[noBins](b => 0);
      assert counters[..] == Counts(snapshot[..0], noBins, min, width);
      var i := 0;
      while i < |snapshot|
        invariant 0 <= i <= |snapshot|
        invariant counters[..] == Counts(snapshot[..i], noBins, min, width)
      {
        var x := snapshot[i];
        var binIndex := Ratio(noBins, min, width, x).Floor;
        if binIndex < 0 {
          binIndex := 0;
        }
        if binIndex >= noBins {
          binIndex := noBins - 1;
        }
        assert binIndex == BinIndex(noBins, min, width, x);
        CountsStep(snapshot, i, noBins, min, width);
        ghost var before := counters[..];
        counters[binIndex] := counters[binIndex] + 1;
        assert counters[..] == before[binIndex := before[binIndex] + 1];
        i := i + 1;
      }
      assert snapshot[..i] == snapshot;
      bins := counters[..];
      CountsTotal(snapshot, noBins, min, width);
    }
  }

  /** A larger quantile never gives a smaller value. */
  lemma QuantileMonotone(s: Snapshot, q1: real, q2: real)
    requires s.Valid() && 0.0 <= q1 <= q2 <= 1.0
    ensures s.GetValue(q1).value <= s.GetValue(q2).value
  {
    if 0 < |s.snapshot| {
      var maxIndex := |s.snapshot| - 1;
      PositionMonotone(q1, q2, maxIndex);
      if Position(q2, maxIndex) < maxIndex as real {
        SameSegment(s, q1, q2);
      }
    }
  }

  lemma PositionMonotone(q1: real, q2: real, maxIndex: nat)
    requires 0.0 <= q1 <= q2 <= 1.0
    ensures Position(q1, maxIndex) <= Position(q2, maxIndex)
  {
    assert Position(q2, maxIndex) - Position(q1, maxIndex) == Product(q2 - q1, maxIndex as real);
  }

  /** Below the last index, interpolation between ascending samples grows with the position. */
  lemma SameSegment(s: Snapshot, q1: real, q2: real)
    requires s.Valid() && 0 < |s.snapshot| && 0.0 <= q1 <= q2 <= 1.0
    requires Position(q1, |s.snapshot| - 1) <= Position(q2, |s.snapshot| - 1) < (|s.snapshot| - 1) as real
    ensures s.GetValue(q1).value <= s.GetValue(q2).value
  {
    var p1, p2 := Position(q1, |s.snapshot| - 1), Position(q2, |s.snapshot| - 1);
    var k1, k2 := p1.Floor, p2.Floor;
    if k1 == k2 {
      InterpolateMonotone(s.snapshot[k1], s.snapshot[k1 + 1], p1 - k1 as real, p2 - k1 as real);
    } else {
      assert s.snapshot[k1 + 1] <= s.snapshot[k2];
    }
  }

  lemma InterpolateMonotone(lower: real, upper: real, f1: real, f2: real)
    requires 0.0 <= f1 <= f2 <= 1.0 && lower <= upper
    ensures Interpolate(lower, upper, f1) <= Interpolate(lower, upper, f2)
  {
    assert Product(f2, upper - lower) - Product(f1, upper - lower) == Product(f2 - f1, upper - lower);
  }

  /** A snapshot of the elements of an ascending `xs` lists exactly `xs`. */
  lemma SortedValues(s: Snapshot, xs: seq<real>)
    requires s.Valid() && Sorted(xs) && multiset(s.snapshot) == multiset(xs)
    ensures s.Values() == xs
  {
    SortedUnique(xs, s.snapshot);
  }

  /** Whatever the order of 100, 150 and 200 in the range, the snapshot holds them ascending. */
  lemma SortedExample(s: Snapshot)
    requires s.Valid() && multiset(s.snapshot) == multiset([200.0, 100.0, 150.0])
    ensures s.Size() == 3 && s.Values() == [100.0, 150.0, 200.0]
  {
    SortedUnique([100.0, 150.0, 200.0], s.snapshot);
  }

  /** Quantiles of 100, 150, 200: the position falls on a sample or halfway between two. */
  lemma OddQuantiles(s: Snapshot)
    requires s.Valid() && s.snapshot == [100.0, 150.0, 200.0]
    ensures s.GetValue(0.0) == Value(100.0) && s.GetValue(0.25) == Value(125.0)
    ensures s.GetValue(0.5) == Value(150.0) && s.GetValue(0.75) == Value(175.0)
    ensures s.GetValue(1.0) == Value(200.0)
  {
    assert s.GetValue(0.25) == Value(125.0);
    assert s.GetValue(0.5) == Value(150.0);
    assert s.GetValue(0.75) == Value(175.0);
  }

  /** Quantiles just outside [0, 1] are refused. */
  lemma OutOfRange(s: Snapshot)
    requires s.Valid()
    ensures s.GetValue(-0.000000001) == InvalidArgument && s.GetValue(1.000000001) == InvalidArgument
  {
  }

  /** Quantiles of 200, 400, 600, 800, where the quartiles fall between samples. */
  lemma EvenQuantiles(s: Snapshot)
    requires s.Valid() && s.snapshot == [200.0, 400.0, 600.0, 800.0]
    ensures s.GetValue(0.0) == Value(200.0) && s.GetValue(0.25) == Value(350.0)
    ensures s.GetValue(0.5) == Value(500.0) && s.GetValue(0.75) == Value(650.0)
    ensures s.GetValue(1.0) == Value(800.0)
  {
  }

  /** Counting a range with one more sample at its end. */
  lemma CountsSnoc(xs: seq<real>, x: real, noBins: nat, min: real, width: real)
    requires noBins > 0 && width != 0.0
    ensures var c := Counts(xs, noBins, min, width);
            var b := BinIndex(noBins, min, width, x);
            Counts(xs + [x], noBins, min, width) == c[b := c[b] + 1]
  {
    assert (xs + [x])[..|xs|] == xs;
  }

  /** 100, 150, 200 in two bins of three ranges: all in the first, all in the last, and split two to one. */
  lemma BinExamples()
    ensures Counts([100.0, 150.0, 200.0], 2, 125.0, 200.0) == [3, 0]
    ensures Counts([100.0, 150.0, 200.0], 2, 50.0, 100.0) == [0, 3]
    ensures Counts([100.0, 150.0, 200.0], 2, 75.0, 200.0) == [2, 1]
  {
    assert [100.0, 150.0, 200.0] == [] + [100.0] + [150.0] + [200.0];
    assert RawBin(2, 125.0, 200.0, 100.0) == -1 && RawBin(2, 125.0, 200.0, 150.0) == 0 && RawBin(2, 125.0, 200.0, 200.0) == 0;
    assert RawBin(2, 50.0, 100.0, 100.0) == 1 && RawBin(2, 50.0, 100.0, 150.0) == 2 && RawBin(2, 50.0, 100.0, 200.0) == 3;
    assert RawBin(2, 75.0, 200.0, 100.0) == 0 && RawBin(2, 75.0, 200.0, 150.0) == 0 && RawBin(2, 75.0, 200.0, 200.0) == 1;
    CountsSnoc([], 100.0, 2, 125.0, 200.0);
    CountsSnoc([100.0], 150.0, 2, 125.0, 200.0);
    CountsSnoc([100.0, 150.0], 200.0, 2, 125.0, 200.0);
    CountsSnoc([], 100.0, 2, 50.0, 100.0);
    CountsSnoc([100.0], 150.0, 2, 50.0, 100.0);
    CountsSnoc([100.0, 150.0], 200.0, 2, 50.0, 100.0);
    CountsSnoc([], 100.0, 2, 75.0, 200.0);
    CountsSnoc([100.0], 150.0, 2, 75.0, 200.0);
    CountsSnoc([100.0, 150.0], 200.0, 2, 75.0, 200.0);
  }

  /** 0, 0, 1.5 and 4 in four bins of width 1 over [0, 4); 4 is clamped into the last bin. */
  lemma UnitBinExample()
    ensures Counts([0.0, 0.0, 1.5, 4.0], 4, 0.0, 4.0) == [2, 1, 0, 1]
  {
    assert [0.0, 0.0, 1.5, 4.0] == [] + [0.0] + [0.0] + [1.5] + [4.0];
    assert RawBin(4, 0.0, 4.0, 0.0) == 0 && RawBin(4, 0.0, 4.0, 1.5) == 1 && RawBin(4, 0.0, 4.0, 4.0) == 4;
    CountsSnoc([], 0.0, 4, 0.0, 4.0);
    CountsSnoc([0.0], 0.0, 4, 0.0, 4.0);
    CountsSnoc([0.0, 0.0], 1.5, 4, 0.0, 4.0);
    CountsSnoc([0.0, 0.0, 1.5], 4.0, 4, 0.0, 4.0);
  }
}
