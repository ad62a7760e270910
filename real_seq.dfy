/** Sums, means and the sample variance of a series of reals, as pandas'
    `sum`, `mean` and `std` (with one degree of freedom) compute them. */
module RealSeq {
  import opened Wrappers

  /** Left-to-right sum, as Python's `sum` adds. */
  function Sum(s: seq<real>): real {
    if s == [] then 0.0 else Sum(s[..|s| - 1]) + s[|s| - 1]
  }

  function Mean(s: seq<real>): real
    requires |s| > 0
  {
    Sum(s) / |s| as real
  }

  predicate Flat(s: seq<real>, c: real) {
    forall i :: 0 <= i < |s| ==> s[i] == c
  }

  predicate Within(s: seq<real>, lo: real, hi: real) {
    forall i :: 0 <= i < |s| ==> lo <= s[i] <= hi
  }

  lemma {:induction false} SumAppend(s: seq<real>, x: real)
    ensures Sum(s + [x]) == Sum(s) + x
  {
    assert (s + [x])[..|s|] == s;
  }

  lemma {:induction false} SumConcat(a: seq<real>, b: seq<real>)
    ensures Sum(a + b) == Sum(a) + Sum(b)
    decreases |b|
  {
    if b != [] {
      var b' := b[..|b| - 1];
      assert a + b == (a + b') + [b[|b| - 1]];
      SumAppend(a + b', b[|b| - 1]);
      SumConcat(a, b');
      assert Sum(b) == Sum(b') + b[|b| - 1];
    } else {
      assert a + b == a;
    }
  }

  /** Every element between `lo` and `hi` bounds the sum by `n·lo` and `n·hi`. */
  lemma {:induction false} SumWithin(s: seq<real>, lo: real, hi: real)
    requires Within(s, lo, hi)
    ensures |s| as real * lo <= Sum(s) <= |s| as real * hi
  {
    if s != [] {
      var init, last := s[..|s| - 1], s[|s| - 1];
      assert Within(init, lo, hi) by {
        forall i | 0 <= i < |init| ensures lo <= init[i] <= hi {
          assert init[i] == s[i];
        }
      }
      SumWithin(init, lo, hi);
      var m := |init| as real;
      assert Sum(s) == Sum(init) + last;
      assert lo <= last <= hi;
      assert |s| as real * lo == m * lo + lo;
      assert |s| as real * hi == m * hi + hi;
    }
  }

  /** The mean of values between `lo` and `hi` lies between them too. */
  lemma MeanWithin(s: seq<real>, lo: real, hi: real)
    requires |s| > 0 && Within(s, lo, hi)
    ensures lo <= Mean(s) <= hi
  {
    SumWithin(s, lo, hi);
    var n := |s| as real;
    assert Sum(s) / n >= lo by { assert Sum(s) >= n * lo; }
    assert Sum(s) / n <= hi by { assert Sum(s) <= n * hi; }
  }

  lemma MeanIsScaledSum(s: seq<real>)
    requires |s| > 0
    ensures Mean(s) == Sum(s) * (1.0 / |s| as real)
  {
  }

  /** The mean of a constant series is that constant. */
  lemma MeanFlat(s: seq<real>, c: real)
    requires |s| > 0 && Flat(s, c)
    ensures Mean(s) == c
  {
    MeanWithin(s, c, c);
  }

  /** A sum of non-negative values is zero exactly when every value is. */
  lemma {:induction false} SumZeroIffAllZero(s: seq<real>)
    requires forall i :: 0 <= i < |s| ==> 0.0 <= s[i]
    ensures Sum(s) == 0.0 <==> Flat(s, 0.0)
    decreases |s|
  {
    if s != [] {
      var init := s[..|s| - 1];
      SumZeroIffAllZero(init);
      if init != [] {
        NonNegElementBelowSum(init, 0);
      }
      assert s == init + [s[|s| - 1]];
    }
  }

  /** The mean of non-negative values is zero exactly when every value is. */
  lemma MeanZeroIffAllZero(s: seq<real>)
    requires |s| > 0 && forall i :: 0 <= i < |s| ==> 0.0 <= s[i]
    ensures Mean(s) == 0.0 <==> Flat(s, 0.0)
  {
    SumZeroIffAllZero(s);
  }

  lemma MeanNonNegative(s: seq<real>)
    requires |s| > 0 && forall i :: 0 <= i < |s| ==> 0.0 <= s[i]
    ensures 0.0 <= Mean(s)
  {
    NonNegElementBelowSum(s, 0);
  }

  lemma {:induction false} NonNegElementBelowSum(s: seq<real>, k: int)
    requires 0 <= k < |s| && forall i :: 0 <= i < |s| ==> 0.0 <= s[i]
    ensures s[k] <= Sum(s) && 0.0 <= Sum(s)
    decreases |s|
  {
    var init := s[..|s| - 1];
    if k < |s| - 1 {
      NonNegElementBelowSum(init, k);
    } else if init != [] {
      NonNegElementBelowSum(init, 0);
    }
  }

  /** Σ a[i]·b[i], added left to right. */
  function Dot(a: seq<real>, b: seq<real>): real
    requires |a| == |b|
  {
    if a == [] then 0.0 else Dot(a[..|a| - 1], b[..|b| - 1]) + a[|a| - 1] * b[|b| - 1]
  }

  lemma {:induction false} DotCons(a: seq<real>, b: seq<real>)
    requires |a| == |b| > 0
    ensures Dot(a, b) == a[0] * b[0] + Dot(a[1..], b[1..])
    decreases |a|
  {
    if |a| > 1 {
      var a', b' := a[..|a| - 1], b[..|b| - 1];
      DotCons(a', b');
      assert a'[1..] == a[1..][..|a| - 2] && b'[1..] == b[1..][..|b| - 2];
    }
  }

  /** Equal weights c turn the weighted sum into c times the plain sum. */
  lemma {:induction false} DotFlat(a: seq<real>, w: seq<real>, c: real)
    requires |a| == |w| && Flat(w, c)
    ensures Dot(a, w) == Sum(a) * c
    decreases |a|
  {
    if a != [] {
      DotFlat(a[..|a| - 1], w[..|w| - 1], c);
    }
  }

  // Small steps of real arithmetic the solver does not find on its own.

  lemma MulNonNeg(a: real, b: real)
    requires 0.0 <= a && 0.0 <= b
    ensures 0.0 <= a * b
  {
  }

  lemma MulAtMost(a: real, b: real)
    requires 0.0 <= a <= 1.0 && 0.0 <= b
    ensures 0.0 <= a * b <= b
  {
    MulNonNeg(a, b);
    MulNonNeg(1.0 - a, b);
    assert b - a * b == (1.0 - a) * b;
  }

  lemma DivIntro(a: real, b: real, d: real)
    requires d != 0.0 && a * d == b
    ensures a == b / d
  {
    assert (b / d) * d == b;
    assert (a - b / d) * d == 0.0;
  }

  /** `(to − from) / from`, the relative change from one value to the next
      (pandas' `pct_change` at one position). */
  function Change(from: real, to: real): real
    requires from != 0.0
  {
    (to - from) / from
  }

  /** The value a relative change was taken to is recovered from it. */
  lemma ChangeRebuilds(from: real, to: real)
    requires from != 0.0
    ensures from * (1.0 + Change(from, to)) == to
  {
    calc {
      from * (1.0 + Change(from, to));
      from + from * ((to - from) / from);
      { assert from * ((to - from) / from) == to - from; }
      to;
    }
  }

  function SquaredDeviations(s: seq<real>, m: real): (r: seq<real>)
    ensures |r| == |s|
  {
    seq(|s|, i requires 0 <= i < |s| => (s[i] - m) * (s[i] - m))
  }

  /** Sample variance (divisor n − 1), the square of pandas' `std()`. */
  function SampleVariance(s: seq<real>): real
    requires |s| >= 2
  {
    Sum(SquaredDeviations(s, Mean(s))) / (|s| - 1) as real
  }

  lemma VarianceNonNegative(s: seq<real>)
    requires |s| >= 2
    ensures SampleVariance(s) >= 0.0
  {
    var d := SquaredDeviations(s, Mean(s));
    forall i | 0 <= i < |d| ensures 0.0 <= d[i] {
      var e := s[i] - Mean(s);
      assert d[i] == e * e;
    }
    if d != [] {
      NonNegElementBelowSum(d, 0);
    }
  }

  /** A constant series has sample variance 0. */
  lemma VarianceOfFlat(s: seq<real>, c: real)
    requires |s| >= 2 && Flat(s, c)
    ensures SampleVariance(s) == 0.0
  {
    MeanFlat(s, c);
    var d := SquaredDeviations(s, Mean(s));
    assert Flat(d, 0.0);
    SumWithin(d, 0.0, 0.0);
  }

  /** What the model needs of the square root it is given: a non-negative
      result for a non-negative argument. */
  ghost predicate NonNegativeRoot(sqrt: real -> real) {
    forall v :: 0.0 <= v ==> 0.0 <= sqrt(v)
  }

  /** pandas' `Series.std()`: the sample standard deviation, NaN (None here)
      for fewer than two values. */
  function SampleStd(s: seq<real>, sqrt: real -> real): (r: Option<real>)
    ensures r.Some? <==> |s| >= 2
  {
    if |s| < 2 then None else Some(sqrt(SampleVariance(s)))
  }

  lemma StdNonNegative(s: seq<real>, sqrt: real -> real)
    requires NonNegativeRoot(sqrt) && |s| >= 2
    ensures SampleStd(s, sqrt).value >= 0.0
  {
    VarianceNonNegative(s);
  }
}
