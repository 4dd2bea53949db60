/** Descriptive statistics over a list of numbers: the arithmetic mean, the
    population variance and the population standard deviation, with the
    errors the three raise. Numbers are mathematical reals, so rounding is
    not modelled. */
module Statistics {

  /** One element of the input list: a number, the not-a-number value, or
      something arithmetic cannot take at all (a string, say). */
  datatype Value = Num(x: real) | NanMarker | NonNumeric

  /** What a call returns: a value, or the exception it raises. It is
      failure-compatible, so `:-` passes an exception on unchanged, as a
      Python call that raises does. */
  datatype Result<+T> = Ok(value: T) | TypeError | ValueError {

    predicate IsFailure() {
      !Ok?
    }

    function PropagateFailure<U>(): Result<U>
      requires IsFailure()
    {
      if TypeError? then TypeError else ValueError
    }

    function Extract(): T
      requires Ok?
    {
      value
    }
  }

  /** Every element is a number. */
  predicate AllNumbers(data: seq<Value>) {
    forall i :: 0 <= i < |data| ==> data[i].Num?
  }

  /** Every element is the same as every other. */
  predicate AllEqual<T(==)>(s: seq<T>) {
    forall i, j :: 0 <= i < |s| && 0 <= j < |s| ==> s[i] == s[j]
  }

  /** `k` copies of `v`, the list `[v] * k`. */
  function Copies<T>(v: T, k: nat): (r: seq<T>)
    ensures |r| == k && forall i :: 0 <= i < k ==> r[i] == v
  {
    seq(k, _ => v)
  }

  /** The numbers of `data` in order, as arithmetic sees them: adding or
      subtracting an element that is not a number raises TypeError. */
  function Numbers(data: seq<Value>): (r: Result<seq<real>>)
    ensures r.Ok? <==> AllNumbers(data)
    ensures !r.Ok? ==> r == TypeError
    ensures r.Ok? ==> |r.value| == |data| && forall i :: 0 <= i < |data| ==> r.value[i] == data[i].x
  {
    if data == [] then Ok([])
    else
      match data[0]
      case Num(x) =>
        var rest :- Numbers(data[1..]);
        Ok([x] + rest)
      case _ => TypeError
  }

  /** The total of `xs`, added left to right from 0 as `sum` does. A total
      of terms none of which is negative is not negative. */
  function Sum(xs: seq<real>): (r: real)
    ensures (forall i :: 0 <= i < |xs| ==> xs[i] >= 0.0) ==> r >= 0.0
  {
    if xs == [] then 0.0 else Sum(xs[..|xs| - 1]) + xs[|xs| - 1]
  }

  /** The squared deviations `(x - m) ** 2` of the elements from `m`, one
      per element and in order; none of them is negative. */
  function SquaredDeviations(xs: seq<real>, m: real): (r: seq<real>)
    ensures |r| == |xs| && forall i {:trigger r[i]} :: 0 <= i < |xs| ==> r[i] == (xs[i] - m) * (xs[i] - m)
    ensures forall i {:trigger r[i]} :: 0 <= i < |xs| ==> r[i] >= 0.0
  {
    seq(|xs|, i requires 0 <= i < |xs| => (xs[i] - m) * (xs[i] - m))
  }

  /** The mean of a non-empty list of numbers: their total over their count,
      as `sum(data) / len(data)` computes it. The mean times the count gives
      back the total. */
  function Mean(xs: seq<real>): (r: real)
    requires |xs| > 0
    ensures r * |xs| as real == Sum(xs)
  {
    Sum(xs) / |xs| as real
  }

  /** The population variance of a non-empty list of numbers: the mean of
      the squared deviations from the mean. It is never negative. */
  function PopulationVariance(xs: seq<real>): (r: real)
    requires |xs| > 0
    ensures r >= 0.0
  {
    Sum(SquaredDeviations(xs, Mean(xs))) / |xs| as real
  }

  /** The arithmetic mean of `data`. TypeError if `data` holds NaN or
      any other non-number, ValueError if it is empty. */
  function Average(data: seq<Value>): (r: Result<real>)
    ensures r == ValueError <==> |data| == 0
    ensures r.Ok? <==> |data| > 0 && AllNumbers(data)
  {
    if NanMarker in data then TypeError
    else if |data| == 0 then ValueError
    else
      var xs :- Numbers(data);
      Ok(Sum(xs) / |data| as real)
  }

  /** The population variance of `data` (divided by n, not n - 1), with
      the same errors as Average. */
  function Variance(data: seq<Value>): (r: Result<real>)
    ensures r == ValueError <==> |data| == 0
    ensures r.Ok? <==> |data| > 0 && AllNumbers(data)
  {
    var n := |data|;
    if NanMarker in data then TypeError
    else if n == 0 then ValueError
    else
      var avg :- Average(data);
      match Numbers(data)
      case Ok(xs) => Ok(Sum(SquaredDeviations(xs, avg)) / n as real)
      case _ => TypeError
  }

  /** A square root that returns the principal (non-negative) root of every
      non-negative real. */
  ghost predicate IsPrincipalSqrt(sqrt: real -> real) {
    forall v :: v >= 0.0 ==> sqrt(v) >= 0.0 && sqrt(v) * sqrt(v) == v
  }

  /** The population standard deviation of `data`, the square root (taken
      with `sqrt`) of its variance, with the same errors as Average. */
  function Stdev(data: seq<Value>, sqrt: real -> real): (r: Result<real>)
    ensures r == ValueError <==> |data| == 0
    ensures r.Ok? <==> |data| > 0 && AllNumbers(data)
  {
    if NanMarker in data then TypeError
    else if |data| <= 0 then ValueError
    else
      var v :- Variance(data);
      Ok(sqrt(v))
  }

  // ---------------------------------------------------------------------
  // Facts about sums

  lemma SumOfOne(a: real)
    ensures Sum([a]) == a
  {
  }

  lemma SumOfTwo(a: real, b: real)
    ensures Sum([a, b]) == a + b
  {
    SumOfOne(a);
    assert [a, b][..1] == [a];
  }

  lemma SumOfThree(a: real, b: real, c: real)
    ensures Sum([a, b, c]) == a + b + c
  {
    SumOfTwo(a, b);
    assert [a, b, c][..2] == [a, b];
  }

  lemma SumOfFour(a: real, b: real, c: real, d: real)
    ensures Sum([a, b, c, d]) == a + b + c + d
  {
    SumOfThree(a, b, c);
    assert [a, b, c, d][..3] == [a, b, c];
  }

  lemma SumOfFive(a: real, b: real, c: real, d: real, e: real)
    ensures Sum([a, b, c, d, e]) == a + b + c + d + e
  {
    SumOfFour(a, b, c, d);
    assert [a, b, c, d, e][..4] == [a, b, c, d];
  }

  /** `k` copies of `c` add up to `k c`. */
  lemma {:induction false} SumOfCopies(c: real, k: nat)
    ensures Sum(Copies(c, k)) == k as real * c
  {
    if k > 0 {
      assert Copies(c, k)[..k - 1] == Copies(c, k - 1);
      SumOfCopies(c, k - 1);
    }
  }

  /** A sum of non-negative terms is zero exactly when every term is. */
  lemma {:induction false} SumZeroIffAllZero(xs: seq<real>)
    requires forall i :: 0 <= i < |xs| ==> xs[i] >= 0.0
    ensures Sum(xs) == 0.0 <==> forall i :: 0 <= i < |xs| ==> xs[i] == 0.0
  {
    if xs != [] {
      var front := xs[..|xs| - 1];
      SumZeroIffAllZero(front);
      if Sum(xs) == 0.0 {
        forall i | 0 <= i < |xs| ensures xs[i] == 0.0 {
          if i < |xs| - 1 {
            assert xs[i] == front[i];
          }
        }
      } else {
        assert !(forall i :: 0 <= i < |front| ==> front[i] == 0.0) || xs[|xs| - 1] != 0.0;
      }
    }
  }

  // ---------------------------------------------------------------------
  // Facts about squared deviations

  /** A squared deviation is zero exactly when the element is `m`. */
  lemma SquaredDeviationZeroIffAt(xs: seq<real>, m: real)
    ensures forall i :: 0 <= i < |xs| ==> (SquaredDeviations(xs, m)[i] == 0.0 <==> xs[i] == m)
  {
    forall i | 0 <= i < |xs| ensures SquaredDeviations(xs, m)[i] == 0.0 <==> xs[i] == m {
      SquareZeroIff(xs[i] - m);
    }
  }

  /** The squared deviations from `m` add up to zero exactly when every
      element is `m`. */
  lemma SumOfSquaredDeviationsZeroIffAllAt(xs: seq<real>, m: real)
    ensures Sum(SquaredDeviations(xs, m)) == 0.0 <==> forall i :: 0 <= i < |xs| ==> xs[i] == m
  {
    SumZeroIffAllZero(SquaredDeviations(xs, m));
    SquaredDeviationZeroIffAt(xs, m);
  }

  // ---------------------------------------------------------------------
  // Arithmetic on plain reals

  lemma CancelCount(a: real, c: real, n: real)
    requires n > 0.0 && a * n == n * c
    ensures a == c
  {
  }

  lemma QuotientZeroIff(total: real, n: real, q: real)
    requires n > 0.0 && q == total / n
    ensures q == 0.0 <==> total == 0.0
    ensures total >= 0.0 ==> q >= 0.0
  {
  }

  lemma MultiplyMonotone(a: real, b: real, c: real)
    requires a <= b && c >= 0.0
    ensures a * c <= b * c
  {
  }

  lemma ProductZeroIff(a: real, b: real)
    ensures a * b == 0.0 <==> a == 0.0 || b == 0.0
  {
  }

  lemma SquareZeroIff(d: real)
    ensures d * d == 0.0 <==> d == 0.0
  {
    ProductZeroIff(d, d);
  }

  lemma RootOfFour(s: real)
    requires s >= 0.0 && s * s == 4.0
    ensures s == 2.0
  {
    if s < 2.0 {
      MultiplyMonotone(s, 2.0, s);
    } else if s > 2.0 {
      MultiplyMonotone(2.0, s, s);
    }
  }

  lemma RootZeroIff(s: real, v: real)
    requires s * s == v
    ensures s == 0.0 <==> v == 0.0
  {
    SquareZeroIff(s);
  }

  // ---------------------------------------------------------------------
  // The mean and the population variance of a list of numbers

  /** The mean of `k >= 1` copies of `c` is `c`. */
  lemma MeanOfCopies(c: real, k: nat)
    requires k > 0
    ensures Mean(Copies(c, k)) == c
  {
    var ys := Copies(c, k);
    SumOfCopies(c, |ys|);
    CancelCount(Mean(ys), c, |ys| as real);
  }

  /** A non-empty list of numbers has all elements equal exactly when each of its
      numbers is its mean. */
  lemma AllEqualIffAllAtMean(xs: seq<real>)
    requires |xs| > 0
    ensures AllEqual(xs) <==> forall i :: 0 <= i < |xs| ==> xs[i] == Mean(xs)
  {
    if AllEqual(xs) {
      assert xs == Copies(xs[0], |xs|);
      MeanOfCopies(xs[0], |xs|);
    }
  }

  /** The population variance is zero exactly when all elements are equal. */
  lemma PopulationVarianceZeroIffAllEqual(xs: seq<real>)
    requires |xs| > 0
    ensures PopulationVariance(xs) == 0.0 <==> AllEqual(xs)
  {
    QuotientZeroIff(Sum(SquaredDeviations(xs, Mean(xs))), |xs| as real, PopulationVariance(xs));
    SumOfSquaredDeviationsZeroIffAllAt(xs, Mean(xs));
    AllEqualIffAllAtMean(xs);
  }

  // ---------------------------------------------------------------------
  // What Average and Variance compute on a list of numbers

  /** The list of the given numbers, as elements. */
  function FromReals(xs: seq<real>): (r: seq<Value>)
    ensures |r| == |xs| && AllNumbers(r) && Numbers(r) == Ok(xs)
  {
    var r := seq(|xs|, i requires 0 <= i < |xs| => Num(xs[i]));
    assert Numbers(r).value == xs;
    r
  }

  /** On a non-empty list of numbers, Average is their mean. */
  lemma AverageOfNumbers(data: seq<Value>)
    requires |data| > 0 && AllNumbers(data)
    ensures Numbers(data).Ok?
    ensures Average(data) == Ok(Mean(Numbers(data).value))
  {
  }

  /** On a non-empty list of numbers, Variance is their population
      variance, taken about the value Average returns. */
  lemma VarianceOfNumbers(data: seq<Value>)
    requires |data| > 0 && AllNumbers(data)
    ensures Numbers(data).Ok? && Average(data).Ok?
    ensures Average(data).value == Mean(Numbers(data).value)
    ensures Variance(data) == Ok(PopulationVariance(Numbers(data).value))
  {
  }

  /** A list of numbers has every element equal exactly when its numbers
      are all equal. */
  lemma AllEqualIffNumbersEqual(data: seq<Value>)
    requires AllNumbers(data)
    ensures Numbers(data).Ok?
    ensures AllEqual(data) <==> AllEqual(Numbers(data).value)
  {
  }

  // ---------------------------------------------------------------------
  // Errors, in the order the three functions check them

  /** A list holding NaN makes all three functions raise TypeError. Such a
      list is never empty, so the NaN test and the emptiness test cannot
      disagree about which error is raised. */
  lemma NanIsTypeError(data: seq<Value>, sqrt: real -> real)
    requires NanMarker in data
    ensures |data| > 0
    ensures Average(data) == TypeError
    ensures Variance(data) == TypeError
    ensures Stdev(data, sqrt) == TypeError
  {
  }

  /** A list holding a non-number that is not NaN (a string) makes all three
      raise TypeError as well, from the arithmetic rather than a test. */
  lemma NonNumericIsTypeError(data: seq<Value>, sqrt: real -> real)
    requires NonNumeric in data
    ensures Average(data) == TypeError
    ensures Variance(data) == TypeError
    ensures Stdev(data, sqrt) == TypeError
  {
  }

  /** The empty list makes all three raise ValueError. */
  lemma EmptyIsValueError(sqrt: real -> real)
    ensures Average([]) == ValueError
    ensures Variance([]) == ValueError
    ensures Stdev([], sqrt) == ValueError
  {
  }

  // ---------------------------------------------------------------------
  // Average

  lemma AverageOfCopies(c: real, k: nat)
    requires k > 0
    ensures Average(Copies(Num(c), k)) == Ok(c)
  {
    var data := Copies(Num(c), k);
    assert FromReals(Copies(c, k)) == data;
    AverageOfNumbers(data);
    MeanOfCopies(c, k);
  }

  lemma AverageOfSingleton(x: real)
    ensures Average([Num(x)]) == Ok(x)
  {
    assert [Num(x)] == Copies(Num(x), 1);
    AverageOfCopies(x, 1);
  }

  // ---------------------------------------------------------------------
  // Variance

  lemma VarianceNonNegative(data: seq<Value>, v: real)
    requires Variance(data) == Ok(v)
    ensures v >= 0.0
  {
    VarianceOfNumbers(data);
  }

  /** The variance is zero exactly when every element equals every other. */
  lemma VarianceZeroIffAllEqual(data: seq<Value>, v: real)
    requires Variance(data) == Ok(v)
    ensures v == 0.0 <==> AllEqual(data)
  {
    VarianceOfNumbers(data);
    PopulationVarianceZeroIffAllEqual(Numbers(data).value);
    AllEqualIffNumbersEqual(data);
  }

  lemma VarianceOfCopies(c: real, k: nat)
    requires k > 0
    ensures Variance(Copies(Num(c), k)) == Ok(0.0)
  {
    var data := Copies(Num(c), k);
    assert FromReals(Copies(c, k)) == data;
    VarianceOfNumbers(data);
    PopulationVarianceZeroIffAllEqual(Copies(c, k));
  }

  lemma VarianceOfSingleton(x: real)
    ensures Variance([Num(x)]) == Ok(0.0)
  {
    assert [Num(x)] == Copies(Num(x), 1);
    VarianceOfCopies(x, 1);
  }

  // ---------------------------------------------------------------------
  // Standard deviation

  /** The standard deviation is the non-negative root of the variance: it is
      never negative and squares back to the variance. */
  lemma StdevIsRootOfVariance(data: seq<Value>, sqrt: real -> real, s: real)
    requires IsPrincipalSqrt(sqrt)
    requires Stdev(data, sqrt) == Ok(s)
    ensures Variance(data).Ok?
    ensures s >= 0.0 && s * s == Variance(data).value
  {
    var v := Variance(data).value;
    VarianceNonNegative(data, v);
    assert s == sqrt(v);
  }

  /** The standard deviation is zero exactly when the variance is, that is
      exactly when every element equals every other. */
  lemma StdevZeroIffVarianceZero(data: seq<Value>, sqrt: real -> real, s: real)
    requires IsPrincipalSqrt(sqrt)
    requires Stdev(data, sqrt) == Ok(s)
    ensures Variance(data).Ok?
    ensures s == 0.0 <==> Variance(data).value == 0.0
    ensures s == 0.0 <==> AllEqual(data)
  {
    StdevIsRootOfVariance(data, sqrt, s);
    RootZeroIff(s, Variance(data).value);
    VarianceZeroIffAllEqual(data, Variance(data).value);
  }

  lemma StdevOfSingleton(x: real, sqrt: real -> real)
    requires IsPrincipalSqrt(sqrt)
    ensures Stdev([Num(x)], sqrt) == Ok(0.0)
  {
    VarianceOfSingleton(x);
    StdevZeroIffVarianceZero([Num(x)], sqrt, Stdev([Num(x)], sqrt).value);
  }

  // ---------------------------------------------------------------------
  // Worked examples from the documentation and the unit tests

  lemma AverageOfOneTwoThree()
    ensures Average([Num(1.0), Num(2.0), Num(3.0)]) == Ok(2.0)
  {
    var xs := [1.0, 2.0, 3.0];
    assert FromReals(xs) == [Num(1.0), Num(2.0), Num(3.0)];
    AverageOfNumbers(FromReals(xs));
    SumOfThree(1.0, 2.0, 3.0);
  }

  lemma AverageOfTwoThreeFour()
    ensures Average([Num(2.0), Num(3.0), Num(4.0)]) == Ok(3.0)
  {
    var xs := [2.0, 3.0, 4.0];
    assert FromReals(xs) == [Num(2.0), Num(3.0), Num(4.0)];
    AverageOfNumbers(FromReals(xs));
    SumOfThree(2.0, 3.0, 4.0);
  }

  lemma AverageOfNegatives()
    ensures Average([Num(-5.0), Num(-2.0)]) == Ok(-3.5)
  {
    var xs := [-5.0, -2.0];
    assert FromReals(xs) == [Num(-5.0), Num(-2.0)];
    AverageOfNumbers(FromReals(xs));
    SumOfTwo(-5.0, -2.0);
  }

  lemma AverageOfThreeFour()
    ensures Average([Num(3.0), Num(4.0)]) == Ok(3.5)
  {
    var xs := [3.0, 4.0];
    assert FromReals(xs) == [Num(3.0), Num(4.0)];
    AverageOfNumbers(FromReals(xs));
    SumOfTwo(3.0, 4.0);
  }

  lemma AverageOfFives()
    ensures Average([Num(5.0), Num(5.0), Num(5.0)]) == Ok(5.0)
  {
    assert [Num(5.0), Num(5.0), Num(5.0)] == Copies(Num(5.0), 3);
    AverageOfCopies(5.0, 3);
  }

  lemma VarianceOfOneTwo()
    ensures Variance([Num(1.0), Num(2.0)]) == Ok(0.25)
  {
    var xs := [1.0, 2.0];
    assert FromReals(xs) == [Num(1.0), Num(2.0)];
    VarianceOfNumbers(FromReals(xs));
    PopulationVarianceOfOneTwo();
  }

  lemma PopulationVarianceOfOneTwo()
    ensures PopulationVariance([1.0, 2.0]) == 0.25
  {
    var xs := [1.0, 2.0];
    SumOfTwo(1.0, 2.0);
    assert Mean(xs) == 1.5;
    assert SquaredDeviations(xs, 1.5) == [0.25, 0.25];
    SumOfTwo(0.25, 0.25);
  }

  lemma VarianceOfMillions()
    ensures Variance([Num(1000000.0), Num(1000004.0)]) == Ok(4.0)
  {
    var xs := [1000000.0, 1000004.0];
    assert FromReals(xs) == [Num(1000000.0), Num(1000004.0)];
    VarianceOfNumbers(FromReals(xs));
    PopulationVarianceOfMillions();
  }

  lemma PopulationVarianceOfMillions()
    ensures PopulationVariance([1000000.0, 1000004.0]) == 4.0
  {
    var xs := [1000000.0, 1000004.0];
    SumOfTwo(1000000.0, 1000004.0);
    assert Mean(xs) == 1000002.0;
    assert SquaredDeviations(xs, 1000002.0) == [4.0, 4.0];
    SumOfTwo(4.0, 4.0);
  }

  lemma VarianceOfTenthsApart()
    ensures Variance([Num(0.1), Num(4.1)]) == Ok(4.0)
  {
    var xs := [0.1, 4.1];
    assert FromReals(xs) == [Num(0.1), Num(4.1)];
    VarianceOfNumbers(FromReals(xs));
    PopulationVarianceOfTenthsApart();
  }

  lemma PopulationVarianceOfTenthsApart()
    ensures PopulationVariance([0.1, 4.1]) == 4.0
  {
    var xs := [0.1, 4.1];
    SumOfTwo(0.1, 4.1);
    assert Mean(xs) == 2.1;
    assert SquaredDeviations(xs, 2.1) == [4.0, 4.0];
    SumOfTwo(4.0, 4.0);
  }

  lemma VarianceOfFourTenths()
    ensures Variance([Num(0.1), Num(4.1), Num(4.1), Num(8.1)]) == Ok(8.0)
  {
    var xs := [0.1, 4.1, 4.1, 8.1];
    assert FromReals(xs) == [Num(0.1), Num(4.1), Num(4.1), Num(8.1)];
    VarianceOfNumbers(FromReals(xs));
    SumOfFour(0.1, 4.1, 4.1, 8.1);
    assert Mean(xs) == 4.1;
    assert SquaredDeviations(xs, 4.1) == [16.0, 0.0, 0.0, 16.0];
    SumOfFour(16.0, 0.0, 0.0, 16.0);
  }

  lemma VarianceOfOneToFive()
    ensures Variance([Num(1.0), Num(2.0), Num(3.0), Num(4.0), Num(5.0)]) == Ok(2.0)
  {
    var xs := [1.0, 2.0, 3.0, 4.0, 5.0];
    assert FromReals(xs) == [Num(1.0), Num(2.0), Num(3.0), Num(4.0), Num(5.0)];
    VarianceOfNumbers(FromReals(xs));
    SumOfFive(1.0, 2.0, 3.0, 4.0, 5.0);
    assert Mean(xs) == 3.0;
    assert SquaredDeviations(xs, 3.0) == [4.0, 1.0, 0.0, 1.0, 4.0];
    SumOfFive(4.0, 1.0, 0.0, 1.0, 4.0);
  }

  lemma VarianceOfUnsorted()
    ensures Variance([Num(10.0), Num(2.0), Num(8.0), Num(4.0), Num(6.0)]) == Ok(8.0)
  {
    var xs := [10.0, 2.0, 8.0, 4.0, 6.0];
    assert FromReals(xs) == [Num(10.0), Num(2.0), Num(8.0), Num(4.0), Num(6.0)];
    VarianceOfNumbers(FromReals(xs));
    SumOfFive(10.0, 2.0, 8.0, 4.0, 6.0);
    assert Mean(xs) == 6.0;
    assert SquaredDeviations(xs, 6.0) == [16.0, 16.0, 4.0, 4.0, 0.0];
    SumOfFive(16.0, 16.0, 4.0, 4.0, 0.0);
  }

  lemma StdevOfOneFive(sqrt: real -> real)
    requires IsPrincipalSqrt(sqrt)
    ensures Stdev([Num(1.0), Num(5.0)], sqrt) == Ok(2.0)
  {
    var xs := [1.0, 5.0];
    var data := [Num(1.0), Num(5.0)];
    assert FromReals(xs) == data;
    VarianceOfNumbers(data);
    SumOfTwo(1.0, 5.0);
    assert Mean(xs) == 3.0;
    assert SquaredDeviations(xs, 3.0) == [4.0, 4.0];
    SumOfTwo(4.0, 4.0);
    assert Variance(data) == Ok(4.0);
    var s := Stdev(data, sqrt).value;
    StdevIsRootOfVariance(data, sqrt, s);
    RootOfFour(s);
  }

  lemma StdevOfHalfSteps(sqrt: real -> real)
    ensures Stdev([Num(0.0), Num(0.5), Num(1.0), Num(1.5), Num(2.0)], sqrt) == Ok(sqrt(0.5))
  {
    var xs := [0.0, 0.5, 1.0, 1.5, 2.0];
    var data := [Num(0.0), Num(0.5), Num(1.0), Num(1.5), Num(2.0)];
    assert FromReals(xs) == data;
    VarianceOfNumbers(data);
    PopulationVarianceOfHalfSteps();
  }

  lemma PopulationVarianceOfHalfSteps()
    ensures PopulationVariance([0.0, 0.5, 1.0, 1.5, 2.0]) == 0.5
  {
    var xs := [0.0, 0.5, 1.0, 1.5, 2.0];
    SumOfFive(0.0, 0.5, 1.0, 1.5, 2.0);
    assert Mean(xs) == 1.0;
    assert SquaredDeviations(xs, 1.0) == [1.0, 0.25, 0.0, 0.25, 1.0];
    SumOfFive(1.0, 0.25, 0.0, 0.25, 1.0);
  }
}
