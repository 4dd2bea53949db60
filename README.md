# Descriptive statistics: a verified Dafny model

This project models the three functions of `statistics.py`: `average`,
`variance` and `stdev`. They take a list and return the arithmetic mean, the
population variance (divisor n, not n - 1) and the population standard
deviation. On inputs whose magnitudes stay within the range of a
double-precision float, each can fail in one of two ways:

- TypeError when the list holds NaN, or an element that arithmetic cannot take,
  such as a string;
- ValueError when the list is empty.

The model is one module, `Statistics`, in `statistics.dfy`. The source is
pure, so the model is pure too: datatypes, recursive functions and lemmas,
with no state.

- A list element is a `Value`: `Num(x)` for a number, `NanMarker` for NaN, or
  `NonNumeric` for anything else (a string, say). Numbers are mathematical
  reals.
- A call returns a `Result<real>`: `Ok(value)`, `TypeError` or `ValueError`.
  `Result` supports `:-`, so an exception raised by a nested call passes up
  unchanged, as it does in Python.
- `Average`, `Variance` and `Stdev` follow the source branch for branch:
  - the NaN membership test first;
  - then the emptiness test (`len(data) == 0` in `average`, `n == 0` in `variance`, `len(data) <= 0` in `stdev`);
  - then the arithmetic. `Variance` calls `Average` for the mean, as the source does, and `Stdev` calls `Variance`.
- `Numbers` models how `sum` treats the elements: it takes each element's
  number, in order, and raises TypeError on a non-number. This is how a string
  in the list becomes a TypeError in the source, because it is not caught by
  an explicit test. `Sum` then adds the numbers left to right, starting from
  0, as `sum` does.
- `math.sqrt` is the parameter `sqrt: real -> real`. Results about `Stdev`
  assume `IsPrincipalSqrt(sqrt)`: `sqrt` returns a non-negative root of every
  non-negative real.
- `Mean` and `PopulationVariance` are the closed-form definitions over a
  non-empty list of reals. `AverageOfNumbers` and `VarianceOfNumbers` tie the
  Python-level functions to them. The arithmetic properties are proved
  about them.

The NaN test comes before the emptiness test in all three functions. The
model keeps that order, but no input can observe it: a list that contains NaN
is never empty, and `NanIsTypeError` proves this.

## Model

| member | source | states |
|---|---|---|
| Statistics.Average | statistics.py:21-25 | ValueError exactly when the list is empty; a result exactly when the list is non-empty and every element is a number; TypeError otherwise (NaN or a non-number) |
| Statistics.Variance | statistics.py:53-63 | the same three outcomes under the same conditions as Average |
| Statistics.Stdev | statistics.py:81-86 | the same three outcomes under the same conditions as Average, with the emptiness test written as `len(data) <= 0` |
| Statistics.Numbers | statistics.py:25 | summing succeeds exactly when every element is a number and otherwise raises TypeError; on success it yields the numbers in order, one per element |
| Statistics.NanIsTypeError | statistics.py:21-22 | a list holding NaN is non-empty, and all three functions raise TypeError on it (so the NaN test wins over the emptiness test) |
| Statistics.NonNumericIsTypeError | test_statistics.py:19-22 | a list holding a string makes all three functions raise TypeError |
| Statistics.EmptyIsValueError | statistics.py:23-24 | the empty list makes all three functions raise ValueError |
| Statistics.AverageOfNumbers | statistics.py:25 | on a non-empty list of numbers, Average returns their total over their count |
| Statistics.Sum | statistics.py:25 | the total of a list of numbers; a total of non-negative terms is never negative |
| Statistics.Mean | statistics.py:25 | the mean times the count gives back the total: the average is the inverse of spreading the total evenly |
| Statistics.SumOfCopies | statistics.py:25 | k copies of c add up to k·c |
| Statistics.MeanOfCopies | statistics.py:25 | the mean of k ≥ 1 copies of c is c |
| Statistics.AverageOfCopies | test_statistics.py:96-98 | the average of k ≥ 1 copies of c is c (the `[1e10] * 100` case) |
| Statistics.AverageOfSingleton | test_statistics.py:24-26 | the average of `[x]` is x |
| Statistics.VarianceOfNumbers | statistics.py:59-62 | on a non-empty list of numbers, the mean Variance uses is Average's result, and Variance returns the mean of the squared deviations from that mean (population formula, divisor n) |
| Statistics.SquaredDeviations | statistics.py:62 | one term per element, in order, each the square of the element's distance from m, and so never negative |
| Statistics.SumZeroIffAllZero | statistics.py:62 | a sum of non-negative terms is zero exactly when every term is zero |
| Statistics.SumOfSquaredDeviationsZeroIffAllAt | statistics.py:62 | the squared deviations from m add up to zero exactly when every element equals m |
| Statistics.PopulationVariance | statistics.py:59-62 | the mean of the squared deviations from the mean of a non-empty list is never negative |
| Statistics.AllEqualIffAllAtMean | statistics.py:59-62 | a non-empty list has all elements equal exactly when every element equals its mean |
| Statistics.PopulationVarianceZeroIffAllEqual | statistics.py:62 | the population variance is zero exactly when all elements are equal |
| Statistics.VarianceNonNegative | statistics.py:53-63 | whenever Variance returns a value, it is non-negative |
| Statistics.VarianceZeroIffAllEqual | statistics.py:53-63 | whenever Variance returns a value, it is zero exactly when every element equals every other |
| Statistics.VarianceOfCopies | test_statistics.py:64-66 | the variance of k ≥ 1 copies of c is 0 (`[5] * 100`, `[10.0] * 4`, `[1e10] * 100`) |
| Statistics.VarianceOfSingleton | test_statistics.py:60-62 | the variance of `[x]` is 0 |
| Statistics.StdevIsRootOfVariance | statistics.py:86 | whenever Stdev returns s, Variance returns a value v, s ≥ 0 and s·s = v |
| Statistics.StdevZeroIffVarianceZero | statistics.py:86 | the standard deviation is zero exactly when the variance is zero, and exactly when every element equals every other |
| Statistics.StdevOfSingleton | test_statistics.py:88-90 | the standard deviation of `[x]` is 0 (`[10.0]`, `[42]`) |
| Statistics.AverageOfOneTwoThree | statistics.py:12-13 | `average([1, 2, 3])` is 2 |
| Statistics.AverageOfFives | statistics.py:14-15 | `average([5, 5, 5])` is 5 |
| Statistics.AverageOfTwoThreeFour | test_statistics.py:10 | `average([2, 3, 4])` is 3 |
| Statistics.AverageOfNegatives | test_statistics.py:28-30 | `average([-5, -2])` is -3.5 |
| Statistics.AverageOfThreeFour | test_statistics.py:32-34 | `average([3, 4.0])` is 3.5 |
| Statistics.VarianceOfOneTwo | statistics.py:44-45 | `variance([1, 2])` is 0.25 |
| Statistics.PopulationVarianceOfOneTwo | statistics.py:44-45 | the population variance of 1 and 2 is 0.25 |
| Statistics.VarianceOfMillions | statistics.py:46-47 | `variance([1000000, 1000004])` is 4 |
| Statistics.PopulationVarianceOfMillions | statistics.py:46-47 | the population variance of 1000000 and 1000004 is 4 |
| Statistics.VarianceOfOneToFive | test_statistics.py:42 | `variance([1, 2, 3, 4, 5])` is 2 |
| Statistics.VarianceOfUnsorted | test_statistics.py:43 | `variance([10, 2, 8, 4, 6])` is 8 |
| Statistics.VarianceOfTenthsApart | test_statistics.py:47 | `variance([0.1, 4.1])` is 4 |
| Statistics.PopulationVarianceOfTenthsApart | test_statistics.py:47 | the population variance of 0.1 and 4.1 is 4 |
| Statistics.VarianceOfFourTenths | test_statistics.py:48 | `variance([0.1, 4.1, 4.1, 8.1])` is 8 |
| Statistics.StdevOfOneFive | statistics.py:74-75 | with a principal square root, `stdev([1, 5])` is 2 |
| Statistics.StdevOfHalfSteps | test_statistics.py:75-76 | `stdev([0, 0.5, 1, 1.5, 2])` is `sqrt(0.5)` |
| Statistics.PopulationVarianceOfHalfSteps | test_statistics.py:75-76 | the population variance of 0, 0.5, 1, 1.5 and 2 is 0.5 |

## Left out

- Floating-point rounding: numbers are exact reals. The tests that compare with a tolerance (`variance([0.1, 4.1])`, `variance([0.1, 4.1, 4.1, 8.1])`) are stated as exact equalities, which hold over the reals.
- Magnitudes beyond the range of a double-precision float are not modelled; every real is representable. The model therefore misses:
  - the OverflowError that `(x - avg) ** 2` raises when the square exceeds that range (statistics.py:62, e.g. `variance([0.0, 1e300])`);
  - the OverflowError that `sum(data) / len(data)` raises when an integer total is too large to convert to a float (statistics.py:25, e.g. `average([10**400])`);
  - the inf results that follow when `sum` overflows to inf (e.g. `[1e308] * 2`, whose average and variance are both inf). AverageOfCopies and VarianceOfCopies state the exact values c and 0 for such inputs.
- Integer and float promotion: `3` and `4.0` are both the real number they denote, and every result is a real.
- `math.sqrt` is not defined in the model. `Stdev` takes the square root as a parameter, and the lemmas about it assume only that it returns the principal root of non-negative reals. How the root is computed and rounded is not modelled.
- NaN detection: any NaN in the list is the single element `NanMarker`, which the membership test always finds. In Python, `nan in data` compares by identity first. A NaN object other than `math.nan` (for example `float('nan')`) escapes the test and propagates through the arithmetic. The model does not capture that case.
- Dynamic typing: every non-numeric element is the single value `NonNumeric`. Only its effect is modelled: the TypeError that `sum` raises.
- Statistics.Numbers: maps `NanMarker` to TypeError. No caller can reach that case, because all three functions reject NaN before they sum.
- Exception messages ("List must contain at least one value") are not modelled; only the exception kind is.
- The unittest test classes and the doctest runner are not modelled. Their expected values appear as the example lemmas above.
