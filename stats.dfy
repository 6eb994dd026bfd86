/**
  Population statistics used by both benchmark scripts: the sum, the
  population mean (`np.mean`) and the population variance (`np.std` with
  its default ddof = 0, before the square root).  Series are sequences of
  exact reals; floating-point rounding is not modelled.
*/
module Stats {

  /** Sum of a series, front to back. */
  function Sum(s: seq<real>): real
  {
    if |s| == 0 then 0.0 else s[0] + Sum(s[1..])
  }

  /** Population mean of a non-empty series. */
  function Mean(s: seq<real>): real
    requires |s| > 0
  {
    Sum(s) / (|s| as real)
  }

  /** The squared deviation of every sample from `m`. */
  function SquaredDeviations(s: seq<real>, m: real): (d: seq<real>)
    ensures |d| == |s|
    ensures forall i :: 0 <= i < |s| ==> d[i] >= 0.0
  {
    seq(|s|, i requires 0 <= i < |s| => Square(s[i] - m))
  }

  /** x * x, split on the sign of x so that the solver sees it is never negative. */
  function Square(x: real): (r: real)
    ensures r >= 0.0
  {
    if x >= 0.0 then x * x else (-x) * (-x)
  }

  /** Population variance (divides by the number of samples, not by n - 1). */
  function Variance(s: seq<real>): real
    requires |s| > 0
  {
    Sum(SquaredDeviations(s, Mean(s))) / (|s| as real)
  }

  /** Integers widened to reals, as numpy does when it averages a list of ints. */
  function AsReals(xs: seq<int>): (r: seq<real>)
    ensures |r| == |xs|
    ensures forall i :: 0 <= i < |xs| ==> r[i] == xs[i] as real
  {
    seq(|xs|, i requires 0 <= i < |xs| => xs[i] as real)
  }

  /** Adding the same constant to every sample adds n times that constant to the sum. */
  lemma {:induction false} SumShift(a: seq<real>, b: seq<real>, c: real)
    requires |a| == |b|
    requires forall i :: 0 <= i < |a| ==> a[i] == c + b[i]
    ensures Sum(a) == (|a| as real) * c + Sum(b)
  {
    if |a| > 0 {
      SumShift(a[1..], b[1..], c);
    }
  }

  /** A series whose every sample is `c` sums to n times `c`. */
  lemma {:induction false} SumConstant(a: seq<real>, c: real)
    requires forall i :: 0 <= i < |a| ==> a[i] == c
    ensures Sum(a) == (|a| as real) * c
  {
    if |a| > 0 {
      SumConstant(a[1..], c);
    }
  }

  lemma {:induction false} SumNonNegative(a: seq<real>)
    requires forall i :: 0 <= i < |a| ==> a[i] >= 0.0
    ensures Sum(a) >= 0.0
  {
    if |a| > 0 {
      SumNonNegative(a[1..]);
    }
  }

  /** The sum is monotone in every sample. */
  lemma {:induction false} SumMonotone(a: seq<real>, b: seq<real>)
    requires |a| == |b|
    requires forall i :: 0 <= i < |a| ==> a[i] <= b[i]
    ensures Sum(a) <= Sum(b)
  {
    if |a| > 0 {
      SumMonotone(a[1..], b[1..]);
    }
  }

  /** The sum is strictly monotone when every sample grows strictly. */
  lemma {:induction false} SumStrictlyMonotone(a: seq<real>, b: seq<real>)
    requires |a| == |b| > 0
    requires forall i :: 0 <= i < |a| ==> a[i] < b[i]
    ensures Sum(a) < Sum(b)
  {
    SumMonotone(a[1..], b[1..]);
  }

  /** Shifting every sample by `c` shifts the mean by `c`. */
  lemma MeanShift(a: seq<real>, b: seq<real>, c: real)
    requires |a| == |b| > 0
    requires forall i :: 0 <= i < |a| ==> a[i] == c + b[i]
    ensures Mean(a) == c + Mean(b)
  {
    var n := |a| as real;
    SumShift(a, b, c);
    assert Sum(a) / n == (n * c) / n + Sum(b) / n;
  }

  /** The mean of a constant series is that constant. */
  lemma MeanConstant(a: seq<real>, c: real)
    requires |a| > 0
    requires forall i :: 0 <= i < |a| ==> a[i] == c
    ensures Mean(a) == c
  {
    SumConstant(a, c);
  }

  lemma MeanMonotone(a: seq<real>, b: seq<real>)
    requires |a| == |b| > 0
    requires forall i :: 0 <= i < |a| ==> a[i] <= b[i]
    ensures Mean(a) <= Mean(b)
  {
    SumMonotone(a, b);
  }

  lemma MeanStrictlyMonotone(a: seq<real>, b: seq<real>)
    requires |a| == |b| > 0
    requires forall i :: 0 <= i < |a| ==> a[i] < b[i]
    ensures Mean(a) < Mean(b)
  {
    SumStrictlyMonotone(a, b);
  }

  /** Population variance is never negative. */
  lemma VarianceNonNegative(s: seq<real>)
    requires |s| > 0
    ensures Variance(s) >= 0.0
  {
    SumNonNegative(SquaredDeviations(s, Mean(s)));
  }

  /** A series whose samples are all equal has variance zero. */
  lemma VarianceOfConstant(s: seq<real>, c: real)
    requires |s| > 0
    requires forall i :: 0 <= i < |s| ==> s[i] == c
    ensures Variance(s) == 0.0
  {
    MeanConstant(s, c);
    SumConstant(SquaredDeviations(s, Mean(s)), 0.0);
  }
}
