# cpp-metrics, modelled in Dafny

cpp-metrics is a header-only C++ library of streaming statistics. Every
metric takes samples one at a time and reports a summary without keeping
all of the samples:

- **Accumulators.** `MinMax`, `MinMeanMax`, `Variance` and `Statistics`
  keep running bounds, a sum and Welford means. `Kurtosis` adds the third
  and fourth central moments. `LinearRegression` keeps a co-moment for
  least-squares fits.
- **Gauge.** Holds the last value.
- **Reservoirs.** A sliding window (`SlidingWindowReservoir`) and
  Algorithm L random sampling (`SamplingReservoir`). Each hands out a
  `Snapshot`: the retained samples sorted, with linear-interpolation
  quantiles and histogram bins.

Each of those classes is a Dafny `class` with the same fields, updated in
place by methods with the same branches. Each class carries a ghost record
of the samples seen since the last reset (`Seen`, `Stream`, `History`).
`Valid()` ties the fields to closed forms over that record (module
`Series`):

- the count is the number of samples;
- `min` and `max` are the least and greatest sample;
- the mean is the arithmetic mean;
- M2, M3 and M4 are sums of powers of deviations from the mean;
- S_xy is the co-moment.

Every update is proved to keep this invariant, using these algebra lemmas:

- Welford's step and its third- and fourth-moment extension (`Welford`);
- the parallel merge rules of Chan et al. for `operator+=` (`Welford`,
  `CoMoment`);
- Cauchy-Schwarz and the least-squares minimum (`CoMoment`).

**NaN results.** Where the library returns NAN, the Dafny getter returns
`Numeric.Reading`: `NaN | Num(value)`. Each contract says when the result
is NaN and what the number means in terms of the samples.

**Sorting.** A snapshot is sorted in place by insertion sort on an
`array`. A sorted permutation is unique (`Snapshot.SortedUnique`), so the
values equal what `std::sort` gives.

**Histogram.** `getBins` is a loop over an array of counters. It is proved
equal to a recursive bin count. Separate lemmas give that count's total and
what each bin holds.

**Reservoirs.** The ring buffer and the sampling reservoir are backed by an
`array`. Their invariants say which samples of the stream the buffer holds.

Numbers are modelled as `real`. Source paths below are relative to the
repository root.

## Model

| member | source | states |
|---|---|---|
| Numeric.Div | include/Metrics/Kurtosis.hpp:69-71 | IEEE division limited to the cases the core can reach, where a zero divisor comes with a zero dividend: NaN exactly for 0/0, otherwise the exact quotient |
| MinMax.MinMaxNoLock.constructor | include/Metrics/MinMax.hpp:74-76 | value-initialised: no samples, count 0, bounds 0 |
| MinMax.MinMaxNoLock.Copy | include/Metrics/MinMax.hpp:49 | the copy that `operator+` makes has the same samples and fields |
| MinMax.MinMaxNoLock.Reset | include/Metrics/MinMax.hpp:16 | forgets all samples: count 0; the stale bounds are left unchanged |
| MinMax.MinMaxNoLock.Update | include/Metrics/MinMax.hpp:18-28 | appends the sample. The first sample sets both bounds; later ones take `std::min` and `std::max`. Count grows by 1 |
| MinMax.MinMaxNoLock.AddAssign | include/Metrics/MinMax.hpp:30-45 | the samples become the concatenation, with the bounds set in each of the four empty/non-empty cases. Adding an accumulator to itself doubles the count and keeps the bounds |
| MinMax.MinMaxNoLock.Plus | include/Metrics/MinMax.hpp:47-52 | a fresh accumulator holding the merge; both operands are unchanged |
| MinMax.MinMaxNoLock.Count | include/Metrics/MinMax.hpp:55 | the number of samples since the last reset |
| MinMax.MinMaxNoLock.Min | include/Metrics/MinMax.hpp:58 | NaN exactly when there are no samples; otherwise a sample with no sample below it |
| MinMax.MinMaxNoLock.Max | include/Metrics/MinMax.hpp:61 | NaN exactly when there are no samples; otherwise a sample with no sample above it |
| MinMax.MinBelowMax | include/Metrics/MinMax.hpp:55-61 | with at least one sample, both bounds are numbers and min <= max |
| MinMeanMax.MinMeanMaxNoLock.constructor | include/Metrics/MinMeanMax.hpp:66-67 | no samples; count 0 and sum 0 |
| MinMeanMax.MinMeanMaxNoLock.Copy | include/Metrics/MinMeanMax.hpp:35 | the copy has the same samples, bounds and sum |
| MinMeanMax.MinMeanMaxNoLock.Reset | include/Metrics/MinMeanMax.hpp:16-19 | no samples; count 0 and sum 0 |
| MinMeanMax.MinMeanMaxNoLock.Update | include/Metrics/MinMeanMax.hpp:21-24 | appends the sample; count grows by 1 and the sum by the value |
| MinMeanMax.MinMeanMaxNoLock.AddAssign | include/Metrics/MinMeanMax.hpp:26-30 | the samples are concatenated; the counts and the sums add |
| MinMeanMax.MinMeanMaxNoLock.Plus | include/Metrics/MinMeanMax.hpp:32-38 | a fresh merge; both operands are unchanged |
| MinMeanMax.MinMeanMaxNoLock.Count | include/Metrics/MinMeanMax.hpp:41 | the number of samples |
| MinMeanMax.MinMeanMaxNoLock.Min | include/Metrics/MinMeanMax.hpp:44 | NaN exactly when there are no samples; otherwise the least sample |
| MinMeanMax.MinMeanMaxNoLock.Mean | include/Metrics/MinMeanMax.hpp:47-50 | NaN exactly when there are no samples; otherwise the arithmetic mean, so mean * n == sum |
| MinMeanMax.MinMeanMaxNoLock.Max | include/Metrics/MinMeanMax.hpp:53 | NaN exactly when there are no samples; otherwise the greatest sample |
| MinMeanMax.MergeReports | tests/TestMinMeanMax.cpp:71-79 | merging two non-empty accumulators reports what one accumulator fed both streams reports: the summed count, the lower min, the higher max and the count-weighted mean |
| Welford.MinMaxStep | include/Metrics/MinMax.hpp:23-24 | the bounds of a stream plus one sample are the min and max of the old bounds with that sample |
| Welford.MinMaxConcat | include/Metrics/MinMax.hpp:39-40 | the bounds of two concatenated streams are the min and max of their bounds |
| Welford.MeanStep | include/Metrics/Variance.hpp:39-40 | the mean of a stream plus one sample moves by (x - mean) / n, with n the new count |
| Welford.M2Step | include/Metrics/Variance.hpp:42-43 | Welford: M2 grows by (x - old mean)(x - new mean) |
| Welford.WelfordStep | include/Metrics/Variance.hpp:35-43 | the updated mean and M2 are the mean and M2 of the extended stream |
| Welford.KurtosisM2Step | include/Metrics/Kurtosis.hpp:34-40 | the kurtosis form of the M2 step, term1 = delta (delta/n) n1, gives the M2 of the extended stream |
| Welford.KurtosisM3Step | include/Metrics/Kurtosis.hpp:39 | the M3 step, using the old M2, gives the third central moment of the extended stream |
| Welford.KurtosisM4Step | include/Metrics/Kurtosis.hpp:37-38 | the M4 step, using the old M2 and M3, gives the fourth central moment of the extended stream |
| Welford.KurtosisStep | include/Metrics/Kurtosis.hpp:26-41 | the mean, M2, M3 and M4 after one update are those of the extended stream |
| Welford.MeanMerge | include/Metrics/LinearRegression.hpp:47-48 | the mean of a concatenation is the count-weighted mean of the two means |
| Welford.M2Merge | include/Metrics/LinearRegression.hpp:47-48 | Chan's rule: the M2 of a concatenation is both M2 plus the weighted squared distance of the means |
| Welford.SumIsCountMean | include/Metrics/MinMeanMax.hpp:47-50 | sum == n * mean for every stream |
| Welford.SingleFlat | tests/TestVariance.cpp:37-38 | one sample has M2 = 0 |
| Welford.FlatMoments | include/Metrics/Kurtosis.hpp:69-75 | when M2 is 0, M3 and M4 are 0 too, so kurtosis and skew can only be 0/0 |
| Welford.RmsSquared | include/Metrics/Kurtosis.hpp:78-82 | mean^2 + M2/n is the mean of the squared samples |
| Welford.Shift | tests/TestVariance.cpp:65-70 | the stream with the same offset added to every sample |
| Welford.ShiftSum | tests/TestVariance.cpp:65-70 | an offset c adds n c to the sum |
| Welford.ShiftMean | tests/TestVariance.cpp:65-70 | an offset c moves the mean by c |
| Welford.ShiftInvariance | tests/TestVariance.cpp:61-73 | an offset leaves M2 unchanged, so both variances are offset-independent |
| Series.SumDev2NonNegative | include/Metrics/Variance.hpp:109-113 | a sum of squared deviations is never negative, so neither variance is |
| Series.MeanCentres | include/Metrics/LinearRegression.hpp:42-45 | deviations from the mean sum to 0 |
| Variance.Variance.constructor | include/Metrics/Variance.hpp:116-120 | no samples; count, bounds, mean and M2 are all 0 |
| Variance.Variance.Reset | include/Metrics/Variance.hpp:17-22 | no samples; count, mean and M2 are 0 and the stale bounds are left unchanged |
| Variance.Variance.Update | include/Metrics/Variance.hpp:24-44 | appends the sample and updates the bounds as MinMax does. The mean moves by delta / n and M2 grows by delta times the deviation from the new mean |
| Variance.Variance.Count | include/Metrics/Variance.hpp:104 | the number of samples |
| Variance.Variance.Min | include/Metrics/Variance.hpp:106 | NaN exactly when there are no samples; otherwise the least sample |
| Variance.Variance.Mean | include/Metrics/Variance.hpp:107 | NaN exactly when there are no samples; otherwise mean * n == sum |
| Variance.Variance.Max | include/Metrics/Variance.hpp:108 | NaN exactly when there are no samples; otherwise the greatest sample |
| Variance.Variance.Variance | include/Metrics/Variance.hpp:109 | NaN exactly when there are no samples. Otherwise the population variance: value * n == sum of squared deviations, never negative, and 0 for one sample |
| Variance.Variance.SampleVariance | include/Metrics/Variance.hpp:111-113 | NaN exactly below two samples. Otherwise value * (n - 1) == sum of squared deviations, never negative |
| Variance.SampleVarianceExample | tests/TestVariance.cpp:49-57 | 10, 12, 12, 14 have sample variance 8/3 |
| Variance.SpreadExample | tests/TestVariance.cpp:61-73 | 4, 7, 13, 16 have M2 = 90 |
| Variance.ShiftedSampleVariance | tests/TestVariance.cpp:61-73 | 4, 7, 13, 16 moved by any offset have sample variance 30 |
| Statistics.Statistics.constructor | include/Metrics/Statistics.hpp:78-82 | no samples; every field is 0 |
| Statistics.Statistics.Reset | include/Metrics/Statistics.hpp:16-20 | no samples; count, mean and M2 are 0 and the stale bounds are left unchanged |
| Statistics.Statistics.Update | include/Metrics/Statistics.hpp:22-41 | appends the sample; bounds as MinMax, then Welford's mean and M2 step |
| Statistics.Statistics.Count | include/Metrics/Statistics.hpp:43 | the number of samples |
| Statistics.Statistics.Min | include/Metrics/Statistics.hpp:45 | NaN exactly when there are no samples; otherwise the least sample |
| Statistics.Statistics.Mean | include/Metrics/Statistics.hpp:47 | NaN exactly when there are no samples; otherwise mean * n == sum |
| Statistics.Statistics.Max | include/Metrics/Statistics.hpp:49 | NaN exactly when there are no samples; otherwise the greatest sample |
| Statistics.Statistics.Variance | include/Metrics/Statistics.hpp:52 | NaN exactly below two samples (unlike Variance). Otherwise value * n == sum of squared deviations, never negative |
| Statistics.Statistics.SampleVariance | include/Metrics/Statistics.hpp:58-60 | NaN exactly below two samples. Otherwise value * (n - 1) == sum of squared deviations, never negative |
| Statistics.ThreeValues | tests/TestStatistics.cpp:17-27 | 1, 2, 3 give count 3, min 1, mean 2, max 3 |
| Kurtosis.KurtosisNoLock.constructor | include/Metrics/Kurtosis.hpp:97-101 | no samples; count, mean and the three moments are 0 |
| Kurtosis.KurtosisNoLock.Reset | include/Metrics/Kurtosis.hpp:18-24 | no samples; count, mean and the three moments are 0 |
| Kurtosis.KurtosisNoLock.Update | include/Metrics/Kurtosis.hpp:26-41 | appends the sample; the mean moves by delta_n. M4, then M3, then M2 are replaced, each from the old values of the others |
| Kurtosis.KurtosisNoLock.Count | include/Metrics/Kurtosis.hpp:43 | the number of samples |
| Kurtosis.KurtosisNoLock.Min | include/Metrics/Kurtosis.hpp:45 | NaN exactly when there are no samples; otherwise the least sample |
| Kurtosis.KurtosisNoLock.Mean | include/Metrics/Kurtosis.hpp:47 | NaN exactly when there are no samples; otherwise mean * n == sum |
| Kurtosis.KurtosisNoLock.Max | include/Metrics/Kurtosis.hpp:49 | NaN exactly when there are no samples; otherwise the greatest sample |
| Kurtosis.KurtosisNoLock.Variance | include/Metrics/Kurtosis.hpp:52-54 | NaN exactly when there are no samples. Otherwise value * n == sum of squared deviations, never negative |
| Kurtosis.KurtosisNoLock.SampleVariance | include/Metrics/Kurtosis.hpp:60-62 | NaN exactly below two samples. Otherwise value * (n - 1) == sum of squared deviations, never negative |
| Kurtosis.KurtosisNoLock.Kurtosis | include/Metrics/Kurtosis.hpp:69-71 | NaN exactly when M2 is 0 (no samples or all samples equal). Otherwise value * M2^2 == n * M4 |
| Kurtosis.KurtosisNoLock.ExcessKurtosis | include/Metrics/Kurtosis.hpp:67 | NaN where the kurtosis is; otherwise the kurtosis minus 3 |
| Kurtosis.KurtosisNoLock.SkewSquared | include/Metrics/Kurtosis.hpp:73-75 | the square of the skew: NaN exactly when M2 is 0, otherwise value * M2^3 == n * M3^2 |
| Kurtosis.KurtosisNoLock.RmsSquared | include/Metrics/Kurtosis.hpp:78-82 | the square of the RMS: NaN exactly when there are no samples, otherwise the mean of the squared samples |
| Kurtosis.IncrementsAgree | include/Metrics/Kurtosis.hpp:34-40 | the kurtosis M2 increment equals Welford's increment in Variance |
| Kurtosis.AgreesWithVariance | include/Metrics/Kurtosis.hpp:43-62 | after the same stream, this accumulator and Variance report the same count, mean and both variances |
| Kurtosis.FirstSampleAfterReset | tests/TestKurtosis.cpp:34-48 | after a reset, the single sample 2 gives count 1 and min, mean and max all 2 |
| Kurtosis.HighOffsetSampleVariance | tests/TestKurtosis.cpp:19-32 | c+4, c+7, c+13, c+16 give count 4 and sample variance 30 for every offset c |
| Kurtosis.RmsFirstSample | tests/TestKurtosis.cpp:50-59 | the single sample -5 has RMS squared 25 |
| Kurtosis.WaveSquares | tests/TestKurtosis.cpp:65-69 | k periods of 7, -1 have a sum of squares of 50 k |
| Kurtosis.RmsSquareWave | tests/TestKurtosis.cpp:61-72 | any whole number of periods of 3 +- 4 has RMS squared 25 |
| CoMoment.SxyStep | include/Metrics/LinearRegression.hpp:26-33 | the co-moment update: dx against the old x-mean times dy against the new y-mean gives the S_xy of the extended pairs |
| CoMoment.SxyMerge | include/Metrics/LinearRegression.hpp:43-45 | the S_xy of two concatenated pair streams is both S_xy plus the weighted product of the mean differences |
| CoMoment.FlatCross | include/Metrics/LinearRegression.hpp:60-66 | S_xy is 0 when either coordinate has M2 = 0, so the slope quotient is 0/0 there |
| CoMoment.AffineFit | tests/TestLinearRegression.cpp:80-90 | for points on y = a x + b, the y-mean lies on the line and S_xy = a M2 |
| CoMoment.AboutPoint | include/Metrics/LinearRegression.hpp:87-96 | the co-moment and M2 taken about any point equal the ones about the means, plus n times the products of the mean offsets |
| CoMoment.Residual2 | include/Metrics/LinearRegression.hpp:15-16 | the sum of squared residuals of a line through the means, never negative |
| CoMoment.Residual2Expand | include/Metrics/LinearRegression.hpp:15-16 | that sum is the quadratic M2y - 2 t S_xy + t^2 M2x in the slope t |
| CoMoment.CauchySchwarz | include/Metrics/LinearRegression.hpp:78-83 | S_xy^2 <= M2x M2y |
| CoMoment.QuadraticMinimum | include/Metrics/LinearRegression.hpp:60-67 | a - 2 t c + t^2 b with b > 0 is least at t = c / b |
| CoMoment.LeastSquares | include/Metrics/LinearRegression.hpp:60-67 | the slope S_xy / M2x gives a residual sum no larger than any other slope gives |
| LinearRegression.VarianceNoLock.constructor | include/Metrics/LinearRegression.hpp:113-114 | no samples; count, mean and M2 are 0 |
| LinearRegression.VarianceNoLock.Reset | include/Metrics/LinearRegression.hpp:21-22 | no samples; count, mean and M2 are 0 |
| LinearRegression.VarianceNoLock.Update | include/Metrics/LinearRegression.hpp:29-30 | appends the sample with Welford's mean and M2 step |
| LinearRegression.VarianceNoLock.AddAssign | include/Metrics/LinearRegression.hpp:47-48 | the samples are concatenated with Chan's merged mean and M2; two empty operands change nothing |
| LinearRegression.VarianceNoLock.Count | include/Metrics/LinearRegression.hpp:53 | the number of samples |
| LinearRegression.VarianceNoLock.Mean | include/Metrics/LinearRegression.hpp:74 | NaN exactly when there are no samples; otherwise mean * n == sum |
| LinearRegression.LinearRegressionNoLock.constructor | include/Metrics/LinearRegression.hpp:113-115 | no pairs; S_xy is 0 |
| LinearRegression.LinearRegressionNoLock.Reset | include/Metrics/LinearRegression.hpp:20-24 | no pairs; S_xy is 0 |
| LinearRegression.LinearRegressionNoLock.Update | include/Metrics/LinearRegression.hpp:26-33 | appends the pair; both counts grow by 1. S_xy grows by (x - old x-mean)(y - new y-mean) |
| LinearRegression.LinearRegressionNoLock.AddAssign | include/Metrics/LinearRegression.hpp:35-50 | the pairs are concatenated; with no pairs S_xy is unchanged, otherwise it is the merged co-moment. `rhs` may be the same object |
| LinearRegression.LinearRegressionNoLock.Count | include/Metrics/LinearRegression.hpp:53 | the number of pairs, equal for x and y |
| LinearRegression.LinearRegressionNoLock.Slope | include/Metrics/LinearRegression.hpp:60-67 | NaN exactly below two pairs or when all x are equal. Otherwise slope * M2x == S_xy |
| LinearRegression.LinearRegressionNoLock.Intercept | include/Metrics/LinearRegression.hpp:71-75 | NaN where the slope is; otherwise intercept + slope * mean x == mean y |
| LinearRegression.LinearRegressionNoLock.CorrelationSquared | include/Metrics/LinearRegression.hpp:78-83 | the square of the correlation: NaN exactly below two pairs or with a constant coordinate. Otherwise value * M2x M2y == S_xy^2 and 0 <= value <= 1 |
| LinearRegression.LinearRegressionNoLock.SlopeThroughAsWritten | include/Metrics/LinearRegression.hpp:87-96 | the source's formula: NaN exactly without pairs or when M2x + dx^2 = 0, otherwise value * (M2x + dx^2) == S_xy + dx dy |
| LinearRegression.LinearRegressionNoLock.SlopeThrough | include/Metrics/LinearRegression.hpp:85-96 | corrected form of `slope_through` (see Findings): the least-squares slope of a line through (x, y): NaN exactly without pairs or when every x equals the point's x. Otherwise value * sum (xi - x)^2 == sum (xi - x)(yi - y) |
| LinearRegression.LinearRegressionNoLock.SlopeThroughOrigin | include/Metrics/LinearRegression.hpp:98-100 | corrected form: the source's line 100 calls the as-written `slope_through(0, 0)`; this is the least-squares slope about (0, 0): value * sum xi^2 == sum xi yi |
| LinearRegression.ShiftedSlope | include/Metrics/LinearRegression.hpp:92-95 | the corrected quotient (s + n dx dy) / (m2 + n dx^2): NaN exactly when the moved M2 is 0, otherwise value * dev == cross |
| LinearRegression.CorrelationOf | include/Metrics/LinearRegression.hpp:81-82 | s^2 / (m2x m2y) for an admissible co-moment: NaN exactly when either M2 is 0, otherwise in [0, 1] |
| LinearRegression.CorrelationBounds | include/Metrics/LinearRegression.hpp:78-83 | both M2 are non-negative, S_xy^2 <= M2x M2y, and S_xy is 0 when a coordinate is constant |
| LinearRegression.ThroughFields | include/Metrics/LinearRegression.hpp:92-95 | the stored fields moved to the point (x, y) are the sums about that point |
| LinearRegression.ThroughPoint | include/Metrics/LinearRegression.hpp:87-96 | when every x equals the point's x, the cross sum about the point is 0 too |
| LinearRegression.SlopeIsLeastSquares | include/Metrics/LinearRegression.hpp:15-16 | the reported slope minimises the squared residuals over all slopes of lines through the means |
| LinearRegression.MergeMatchesWhole | tests/TestLinearRegression.cpp:51-78 | splitting the pairs anywhere and merging gives the same count, slope and intercept as one pass over the whole |
| LinearRegression.CollinearFit | include/Metrics/LinearRegression.hpp:58-75 | points on y = a x + b with distinct x give slope a and intercept b |
| LinearRegression.CollinearSlope | include/Metrics/LinearRegression.hpp:60-67 | points on y = a x + b with distinct x give slope a |
| LinearRegression.InterceptOf | include/Metrics/LinearRegression.hpp:71-75 | with slope a and the means on y = a x + b, the intercept is b |
| LinearRegression.HighOffsetFit | tests/TestLinearRegression.cpp:80-90 | (4, c+4), (7, c+7), (13, c+13), (16, c+16) give count 4, slope 1 and intercept c |
| LinearRegression.NoValue | tests/TestLinearRegression.cpp:7-14 | no pairs: count 0 and no slope, intercept or slope through the origin |
| LinearRegression.SingleValue | tests/TestLinearRegression.cpp:16-25 | the single pair (2, 6): no slope or intercept; slope through the origin 3, both as written and corrected |
| LinearRegression.TwoValues | tests/TestLinearRegression.cpp:27-36 | (2, 5) and (-2, 25) give slope -5 and intercept 15 |
| LinearRegression.AccessStats | tests/TestLinearRegression.cpp:38-49 | (2, 5) and (4, 25) give both parts count 2, x-mean 3 and y-mean 15 |
| LinearRegression.SlopeThroughCounterexample | include/Metrics/LinearRegression.hpp:87-96 | (1, 2) and (3, 2): the formula as written gives 2/3 through the origin, the least-squares slope is 4/5 |
| Gauge.Gauge.constructor | include/Metrics/Gauge.hpp:37 | value-initialised: 0, with no values given |
| Gauge.Gauge.Reset | include/Metrics/Gauge.hpp:14 | back to 0 with no values given |
| Gauge.Gauge.Update | include/Metrics/Gauge.hpp:16-19 | the value becomes the one given, which is appended to the history |
| Gauge.Gauge.Value | include/Metrics/Gauge.hpp:21-24 | 0 when no value was given since construction or the last reset; otherwise the last value given |
| Snapshot.SortedUnique | include/Metrics/Snapshot.hpp:18 | two sorted sequences with the same multiset are equal, so any correct sort gives the values `std::sort` gives |
| Snapshot.SortedHeadLowest | include/Metrics/Snapshot.hpp:18 | the first element of a sorted sequence is at most any element |
| Snapshot.InsertionSort | include/Metrics/Snapshot.hpp:18 | sorts the array in place: the result is sorted and a permutation of the input |
| Snapshot.Insert | include/Metrics/Snapshot.hpp:18 | with the first i elements sorted, moves element i into place: the first i + 1 elements are sorted and the array is a permutation of what it was |
| Snapshot.InsertStart | include/Metrics/Snapshot.hpp:18 | a sorted prefix followed by a new element is sorted apart from that element |
| Snapshot.InsertDone | include/Metrics/Snapshot.hpp:18 | once the moved element is no smaller than its left neighbour and smaller than everything after it, the prefix is sorted |
| Snapshot.Position | include/Metrics/Snapshot.hpp:33-34 | quantile * maxIndex lies in [0, maxIndex]; quantile 0 gives 0 and quantile 1 gives maxIndex |
| Snapshot.Interpolate | include/Metrics/Snapshot.hpp:47 | lower + f (upper - lower) lies in [lower, upper] and is lower for f = 0 |
| Snapshot.BinIndex | include/Metrics/Snapshot.hpp:54-60 | the floored bin clamped into [0, noBins - 1]: the raw bin when it is in range, 0 below, noBins - 1 above |
| Snapshot.Counts | include/Metrics/Snapshot.hpp:51-64 | the per-bin counts of a stream, one per bin |
| Snapshot.CountsStep | include/Metrics/Snapshot.hpp:53-61 | one more sample increments exactly its clamped bin |
| Snapshot.CountsSnoc | include/Metrics/Snapshot.hpp:53-61 | the counts of a stream plus a sample are the old counts with that sample's bin bumped |
| Snapshot.TotalBump | include/Metrics/Snapshot.hpp:61 | incrementing one counter raises the total by one |
| Snapshot.TotalZeros | include/Metrics/Snapshot.hpp:52 | fresh counters total 0 |
| Snapshot.CountsTotal | include/Metrics/Snapshot.hpp:51-64 | the counts total the number of samples, so no sample is lost or counted twice |
| Snapshot.CountsAreHits | include/Metrics/Snapshot.hpp:51-64 | each count is the number of samples whose clamped bin is that bin |
| Snapshot.RatioBounds | include/Metrics/Snapshot.hpp:54 | noBins (x - min) / width is negative below min, at least noBins from min + width on, and in [0, noBins) in between |
| Snapshot.FloorBounds | include/Metrics/Snapshot.hpp:54 | the floor stays negative below 0 and in [0, n) for arguments in [0, n) |
| Snapshot.BinHolds | include/Metrics/Snapshot.hpp:54-61 | a sample in [min, min + width) falls in the bin whose sub-interval [min + b w/n, min + (b+1) w/n) contains it |
| Snapshot.BinClamped | include/Metrics/Snapshot.hpp:55-60 | samples below min go to bin 0 and samples from min + width on go to the last bin |
| Snapshot.Snapshot.constructor | include/Metrics/Snapshot.hpp:15-19 | the snapshot is sorted and has the multiset of the samples it was given |
| Snapshot.Snapshot.Size | include/Metrics/Snapshot.hpp:21 | the number of retained samples |
| Snapshot.Snapshot.Values | include/Metrics/Snapshot.hpp:22 | the retained samples in ascending order, the only sorted arrangement of them |
| Snapshot.Snapshot.GetValue | include/Metrics/Snapshot.hpp:24-48 | invalid_argument exactly outside [0, 1]; 0 for an empty snapshot; otherwise between the first and last value, the first at 0 and the last at 1, and between the values either side of the position (the exact value at whole positions) |
| Snapshot.Snapshot.GetBins | include/Metrics/Snapshot.hpp:51-64 | the loop returns the per-bin counts: noBins counters totalling the number of retained samples |
| Snapshot.QuantileMonotone | include/Metrics/Snapshot.hpp:24-48 | a larger quantile never gives a smaller value |
| Snapshot.PositionMonotone | include/Metrics/Snapshot.hpp:34 | the position grows with the quantile |
| Snapshot.SameSegment | include/Metrics/Snapshot.hpp:44-47 | two quantiles whose positions lie before the last index give ordered values |
| Snapshot.InterpolateMonotone | include/Metrics/Snapshot.hpp:47 | interpolation grows with the fraction |
| Snapshot.SortedValues | include/Metrics/Snapshot.hpp:15-22 | a snapshot of any arrangement of a sorted list reports that list |
| Snapshot.SortedExample | tests/TestSnapshot.cpp:9-18 | 200, 100, 150 give size 3 and values 100, 150, 200 |
| Snapshot.OddQuantiles | tests/TestSnapshot.cpp:20-28 | 100, 150, 200 give 100, 125, 150, 175, 200 at quantiles 0, 0.25, 0.5, 0.75, 1 |
| Snapshot.EvenQuantiles | tests/TestSnapshot.cpp:30-39 | 200, 400, 600, 800 give 200, 350, 500, 650, 800 |
| Snapshot.OutOfRange | tests/TestSnapshot.cpp:41-46 | -1e-9 and 1 + 1e-9 are invalid arguments |
| Snapshot.BinExamples | tests/TestSnapshot.cpp:48-65 | 100, 150, 200 give bins [3, 0], [0, 3] and [2, 1] for the three layouts of the test |
| Snapshot.UnitBinExample | tests/TestHistogram.cpp:50-54 | 0, 0, 1.5, 4 in four unit bins from 0 give [2, 1, 0, 1] |
| SlidingWindowReservoir.Last | include/Metrics/SlidingWindowReservoir.hpp:48-50 | the last k samples of a stream, which end it |
| SlidingWindowReservoir.RingStep | include/Metrics/SlidingWindowReservoir.hpp:22-32 | one write at the cursor, a step and a wrap keep the ring invariant. Before the wrap the buffer starts with the stream; after it, the slots from the cursor on hold the oldest retained samples |
| SlidingWindowReservoir.FillStep | include/Metrics/SlidingWindowReservoir.hpp:24-25 | before the buffer is full the sample is appended at the cursor |
| SlidingWindowReservoir.FillWrap | include/Metrics/SlidingWindowReservoir.hpp:24-31 | the sample that fills the last free slot sends the cursor to 0 and sets the flag |
| SlidingWindowReservoir.OverwriteStep | include/Metrics/SlidingWindowReservoir.hpp:24-25 | once full, the sample replaces the oldest one |
| SlidingWindowReservoir.OverwriteWrap | include/Metrics/SlidingWindowReservoir.hpp:24-31 | once full, writing the last slot sends the cursor back to 0 |
| SlidingWindowReservoir.RingWindow | include/Metrics/SlidingWindowReservoir.hpp:41-50 | the first `samples` slots hold exactly the last `samples` samples of the stream, in some order |
| SlidingWindowReservoir.SlidingWindowReservoir.constructor | include/Metrics/SlidingWindowReservoir.hpp:13 | n zero slots, cursor 0, not full |
| SlidingWindowReservoir.SlidingWindowReservoir.Reset | include/Metrics/SlidingWindowReservoir.hpp:15-19 | cursor 0, not full, buffer unchanged, stream forgotten |
| SlidingWindowReservoir.SlidingWindowReservoir.Update | include/Metrics/SlidingWindowReservoir.hpp:22-32 | writes the cursor slot; the cursor advances, or wraps to 0 and sets the flag |
| SlidingWindowReservoir.SlidingWindowReservoir.Size | include/Metrics/SlidingWindowReservoir.hpp:34 | the capacity |
| SlidingWindowReservoir.SlidingWindowReservoir.Samples | include/Metrics/SlidingWindowReservoir.hpp:48-50 | the stream length capped at the capacity |
| SlidingWindowReservoir.SlidingWindowReservoir.Window | include/Metrics/SlidingWindowReservoir.hpp:41-45 | the last `samples` samples, which the first `samples` slots hold as a multiset |
| SlidingWindowReservoir.SlidingWindowReservoir.GetSnapshot | include/Metrics/SlidingWindowReservoir.hpp:41-45 | a sorted snapshot of exactly the most recent `samples` samples |
| SlidingWindowReservoir.FirstAllStored | tests/TestSlidingWindowReservoir.cpp:6-18 | 10, 11, 12 into a window of 3: three samples, snapshot 10, 11, 12 |
| SlidingWindowReservoir.StoredMore | tests/TestSlidingWindowReservoir.cpp:20-36 | 10 ... 1009 into a window of 3: snapshot 1007, 1008, 1009 |
| SlidingWindowReservoir.AfterReset | tests/TestSlidingWindowReservoir.cpp:38-49 | after a reset and the sample 2: one sample, snapshot [2] |
| SamplingReservoir.SamplingReservoir.constructor | include/Metrics/SamplingReservoir.hpp:18-21 | n zero slots, count 0, next sample to keep at n - 1 plus a skip |
| SamplingReservoir.SamplingReservoir.Reset | include/Metrics/SamplingReservoir.hpp:23-26 | count 0, next at n - 1 plus a skip, buffer unchanged, stream forgotten |
| SamplingReservoir.SamplingReservoir.Update | include/Metrics/SamplingReservoir.hpp:29-40 | fills slot `count` while not full. Once full, replaces the drawn slot when the count reaches `next`, which moves on by the skip; otherwise leaves the buffer unchanged. Count grows by 1 |
| SamplingReservoir.SamplingReservoir.Count | include/Metrics/SamplingReservoir.hpp:42 | the number of samples since the last reset |
| SamplingReservoir.SamplingReservoir.Size | include/Metrics/SamplingReservoir.hpp:43 | the capacity |
| SamplingReservoir.SamplingReservoir.Samples | include/Metrics/SamplingReservoir.hpp:81-83 | the count capped at the capacity |
| SamplingReservoir.SamplingReservoir.GetSnapshot | include/Metrics/SamplingReservoir.hpp:50-54 | a sorted snapshot of the held slots: the whole stream while it fits, a sub-multiset of the stream after |
| SamplingReservoir.Replace | include/Metrics/SamplingReservoir.hpp:35-36 | overwriting one slot of a buffer drawn from the stream leaves a buffer drawn from the extended stream |
| SamplingReservoir.KeepsAllWhileFilling | tests/TestSamplingReservoir.cpp:6-18 | until the buffer is full, every sample is held, in arrival order |
| SamplingReservoir.AfterReset | tests/TestSamplingReservoir.cpp:43-54 | after a reset and the sample 2: one sample, in slot 0, snapshot [2] |

## Left out

- Locking. `std::mutex` and the locking wrapper classes (`MinMax`, `MinMeanMax`, `Kurtosis`, `LinearRegression`, the lock in `Variance`, `Statistics` and the reservoirs) only serialise calls. Each method is modelled as one atomic step of the unlocked state.
- `toString` and the text formatting behind it are output only.
- `Histogram`, `Registry`, `IMetric` and `IReservoir` are not part of this model.
- The raw pointer that the reservoirs' `data()` returns is not modelled, because Dafny has no pointers.
- Floating point. Values are reals, so rounding, overflow to infinity, and NaN or infinite inputs are not modelled. Integer widths (the `int64_t` and `int` counts, the `unsigned` count and `next`, the `uint32_t` bin counters) are unbounded, so their wrap-around is not modelled.
- `stddev`, `sample_stddev`, `correlation`, `skew` and `rms` take a `sqrt` or `pow` that has no exact real counterpart. The model reports and proves the squares of these values instead.
- LinearRegression.LinearRegressionNoLock.CorrelationSquared: states the square of `correlation`, because the square root is left out.
- Kurtosis.KurtosisNoLock.SkewSquared: states the square of `skew`, because `sqrt` and `pow(m2, 1.5)` are left out.
- Kurtosis.KurtosisNoLock.RmsSquared: states the square of `rms`, because the square root is left out.
- Numeric.Div: covers only a zero divisor with a zero dividend. Over the reals no other division by zero arises in the library: M2 = 0 forces S_xy, M3 and M4 to 0. So the infinities of IEEE division are not modelled.
- The variance accumulator that `LinearRegression` embeds (`Internals::VarianceNoLock`) is not part of this model's source. `LinearRegression.VarianceNoLock` is a stand-in with the count, the mean (0 while empty), M2, Welford's update and Chan's merge that the regression relies on. Its standard deviation is taken to be the population deviation sqrt(M2 / n), as `stddev` is defined next to the variance in include/Metrics/Variance.hpp:110 and include/Metrics/Kurtosis.hpp:57; `CorrelationSquared` rests on that reading.
- Random draws in `SamplingReservoir`, which are parameters. `std::minstd_rand`, the distributions, the weight `_w` and the `log`/`exp` skip formula are not modelled. `Update` takes the drawn slot (`index < n`), and `Reset`, the constructor and `Update` take the skip length (`>= 1`). Whether the selection is uniform is a probabilistic property and is not stated.
- SamplingReservoir.SamplingReservoir.constructor: requires a capacity of at least 1, because `uniform_int_distribution(0, n - 1)` has no valid range for `n = 0`.
- SlidingWindowReservoir.SlidingWindowReservoir.Update: requires a positive capacity, because the source writes slot 0 of an empty vector there.
- Snapshot.Snapshot.GetBins: requires `width != 0`. The source then divides by zero and converts NaN or infinity to `int`, behaviour that C++ leaves undefined. A negative `noBins` throws `length_error` when the counter vector is built, so `noBins` is a `nat`. `noBins = 0` is allowed only for an empty snapshot, because with samples the source writes counter -1.
- Snapshot.Snapshot.GetValue: the `pos < 0` branch is not modelled. The quantile check leaves the position non-negative, so that branch never returns.
- Snapshot.InsertionSort: `std::sort` is modelled by insertion sort. Both give the same values, because a sorted permutation is unique (`Snapshot.SortedUnique`). Their cost is not modelled.
- `Variance.update` and `Statistics.update` write the bounds before the moments. The model computes the new moments into locals and writes all fields last; the writes are independent, so the final state is the same.
- Gauge: the `std::atomic` variant is commented out in the source. The plain field is modelled.

## Findings

| source | as written | input that shows it | evidently intended | confidence | as-written member | corrected member |
|---|---|---|---|---|---|---|
| include/Metrics/LinearRegression.hpp:87-96 | `slope_through(x, y)` returns `(S_xy + dx dy) / (M2x + dx^2)`, where dx and dy are the offsets of the means from the point | the pairs (1, 2) and (3, 2) through the origin: the formula gives (0 + 2*2) / (2 + 2^2) = 2/3; the least-squares slope is (1*2 + 3*2) / (1 + 9) = 4/5 | `(S_xy + n dx dy) / (M2x + n dx^2)`, the sums about the point; it agrees with the source for a single pair, the only case the tests cover | not executed | LinearRegression.LinearRegressionNoLock.SlopeThroughAsWritten, LinearRegression.SlopeThroughCounterexample | LinearRegression.LinearRegressionNoLock.SlopeThrough, LinearRegression.LinearRegressionNoLock.SlopeThroughOrigin |
| include/Metrics/LinearRegression.hpp:85-86 | the comments on `slope_through` and `slope_through_origin` (lines 85-86 and 98-99) promise NAN with fewer than 2 measurements, while the guard at line 88 returns NAN only with none (documentation only) | the single pair (2, 6): the code gives 3 through the origin, which tests/TestLinearRegression.cpp:16-25 expects, and not NAN | the comment should read "fewer than 1 measurement"; the code is right | not executed | LinearRegression.SingleValue | LinearRegression.LinearRegressionNoLock.SlopeThroughAsWritten, LinearRegression.LinearRegressionNoLock.SlopeThrough |
