/** Elementary statistics over exact reals, and the NaN-skipping reductions
    that pandas applies to a column (`Series.mean`, `Series.std` with ddof=1). */
module Stats {
  import opened Options

  /** Sum of a sequence, left to right. */
  function Sum(s: seq<real>): real
  {
    if s == [] then 0.0 else s[0] + Sum(s[1..])
  }

  /** Arithmetic mean of a non-empty sequence. */
  function Mean(s: seq<real>): real
    requires |s| > 0
  {
    Sum(s) / (|s| as real)
  }

  /** All elements equal the first. */
  predicate Constant(s: seq<real>)
  {
    forall k :: 0 <= k < |s| ==> s[k] == s[0]
  }

  /** Product of two reals. Squares are written as a product of two
      arguments so that the solver reasons about them as terms. */
  function Product(a: real, b: real): real
  {
    a * b
  }

  function Square(x: real): real
  {
    Product(x, x)
  }

  lemma ProductPositive(a: real, b: real)
    requires a > 0.0 && b > 0.0
    ensures Product(a, b) > 0.0
  {
  }

  lemma SquarePositive(e: real)
    requires e != 0.0
    ensures Square(e) > 0.0
  {
    if e > 0.0 {
      ProductPositive(e, e);
    } else {
      ProductPositive(-e, -e);
      assert Product(-e, -e) == Product(e, e);
    }
  }

  lemma SquareNonNegative(e: real)
    ensures Square(e) >= 0.0
  {
    if e != 0.0 {
      SquarePositive(e);
    }
  }

  /** Sum of the squared deviations of the elements of s from m. */
  function SquaredDeviations(s: seq<real>, m: real): (d: real)
    ensures d >= 0.0
  {
    if s == [] then 0.0
    else
      SquareNonNegative(s[0] - m);
      Square(s[0] - m) + SquaredDeviations(s[1..], m)
  }

  /** Sample variance (denominator n - 1, pandas' default ddof=1). */
  function SampleVariance(s: seq<real>): (v: real)
    requires |s| >= 2
    ensures v >= 0.0
  {
    SquaredDeviations(s, Mean(s)) / ((|s| - 1) as real)
  }

  /** The defined values of a column, in order: what pandas' reductions see
      once NaNs are skipped. */
  function Present(col: seq<Option<real>>): (r: seq<real>)
    ensures |r| <= |col|
  {
    if col == [] then []
    else (if col[0].Some? then [col[0].value] else []) + Present(col[1..])
  }

  /** `Series.mean()`: mean of the defined values, NaN when there are none. */
  function NanMean(col: seq<Option<real>>): (r: Option<real>)
    ensures r.Some? <==> exists k :: 0 <= k < |col| && col[k].Some?
  {
    PresentEmpty(col);
    var p := Present(col);
    if p == [] then None else Some(Mean(p))
  }

  /** `Series.var()` (ddof=1) over the defined values, NaN with fewer than two. */
  function NanVariance(col: seq<Option<real>>): (r: Option<real>)
    ensures r.Some? <==> |Present(col)| >= 2
    ensures r.Some? ==> r.value >= 0.0
  {
    var p := Present(col);
    if |p| < 2 then None else Some(SampleVariance(p))
  }

  lemma {:induction false} PresentEmpty(col: seq<Option<real>>)
    ensures Present(col) == [] <==> forall k :: 0 <= k < |col| ==> col[k].None?
  {
    if col != [] {
      PresentEmpty(col[1..]);
      assert forall k :: 1 <= k < |col| ==> col[k] == col[1..][k - 1];
    }
  }

  /** A column whose entries are all defined presents exactly their values. */
  lemma {:induction false} PresentAllSome(col: seq<Option<real>>, xs: seq<real>)
    requires |col| == |xs|
    requires forall k :: 0 <= k < |col| ==> col[k] == Some(xs[k])
    ensures Present(col) == xs
  {
    if col != [] {
      PresentAllSome(col[1..], xs[1..]);
      assert xs == [xs[0]] + xs[1..];
    }
  }

  lemma {:induction false} SumConcat(a: seq<real>, b: seq<real>)
    ensures Sum(a + b) == Sum(a) + Sum(b)
  {
    if a == [] {
      assert a + b == b;
    } else {
      assert (a + b)[1..] == a[1..] + b;
      SumConcat(a[1..], b);
    }
  }

  lemma {:induction false} SumOfConstant(s: seq<real>, x: real)
    requires forall k :: 0 <= k < |s| ==> s[k] == x
    ensures Sum(s) == (|s| as real) * x
  {
    if s != [] {
      SumOfConstant(s[1..], x);
    }
  }

  lemma MeanOfConstant(s: seq<real>, x: real)
    requires |s| > 0
    requires forall k :: 0 <= k < |s| ==> s[k] == x
    ensures Mean(s) == x
  {
    SumOfConstant(s, x);
  }

  lemma {:induction false} SumBelow(s: seq<real>, x: real)
    requires |s| > 0
    requires forall k :: 0 <= k < |s| ==> s[k] < x
    ensures Sum(s) < (|s| as real) * x
  {
    if |s| > 1 {
      SumBelow(s[1..], x);
    }
  }

  lemma {:induction false} SumAtLeast(s: seq<real>, x: real)
    requires forall k :: 0 <= k < |s| ==> s[k] >= x
    ensures Sum(s) >= (|s| as real) * x
  {
    if s != [] {
      SumAtLeast(s[1..], x);
    }
  }

  /** Each single squared deviation is bounded by their sum. */
  lemma {:induction false} SquaredDeviationsAtLeast(s: seq<real>, m: real, k: nat)
    requires k < |s|
    ensures SquaredDeviations(s, m) >= Square(s[k] - m)
  {
    if k > 0 {
      SquaredDeviationsAtLeast(s[1..], m, k - 1);
      assert s[1..][k - 1] == s[k];
      SquareNonNegative(s[0] - m);
    }
  }

  /** The squared deviations from m vanish when every element equals m. */
  lemma {:induction false} SquaredDeviationsOfConstant(s: seq<real>, m: real)
    requires forall k :: 0 <= k < |s| ==> s[k] == m
    ensures SquaredDeviations(s, m) == 0.0
  {
    if s != [] {
      SquaredDeviationsOfConstant(s[1..], m);
    }
  }

  /** The sample variance is zero if and only if the sample is constant. */
  lemma VarianceZeroIffConstant(s: seq<real>)
    requires |s| >= 2
    ensures SampleVariance(s) == 0.0 <==> Constant(s)
  {
    var m := Mean(s);
    if Constant(s) {
      MeanOfConstant(s, s[0]);
      SquaredDeviationsOfConstant(s, m);
    } else {
      var k :| 0 <= k < |s| && s[k] != s[0];
      var j := if s[k] != m then k else 0;
      SquarePositive(s[j] - m);
      SquaredDeviationsAtLeast(s, m, j);
      assert SquaredDeviations(s, m) > 0.0;
    }
  }
}
