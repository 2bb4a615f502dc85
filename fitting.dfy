/** Fitting a scaler: the per-column statistics each normalisation kind
    computes. Min-max is computed here in full; the mean of the standard
    kind too. The standard deviation, median and interquartile range come
    from a `Statistics` parameter. As sklearn does, a zero spread is
    replaced by 1, so every fitted scale is nonzero. */
module Fitting {
  import opened Matrices
  import opened AffineScaler

  /** The three normalisation kinds the factory can produce. */
  datatype Kind = MinMax | Robust | Standard

  /** The column statistics that are left to the scaling library. */
  datatype Statistics = Statistics(
    stdDev: seq<real> -> real,
    median: seq<real> -> real,
    interquartileRange: seq<real> -> real)

  /** Column k of m. */
  function Column(m: Matrix, rows: nat, cols: nat, k: nat): (c: seq<real>)
    requires IsMatrix(m, rows, cols) && k < cols
    ensures |c| == rows && forall i :: 0 <= i < rows ==> c[i] == m[i][k]
  {
    seq(rows, i requires 0 <= i < rows => m[i][k])
  }

  /** The smallest entry of a nonempty column. */
  function Min(s: seq<real>): (r: real)
    requires |s| > 0
    ensures r in s && forall i :: 0 <= i < |s| ==> r <= s[i]
  {
    if |s| == 1 then s[0]
    else
      var m := Min(s[1..]);
      if s[0] <= m then s[0] else m
  }

  /** The largest entry of a nonempty column. */
  function Max(s: seq<real>): (r: real)
    requires |s| > 0
    ensures r in s && forall i :: 0 <= i < |s| ==> s[i] <= r
  {
    if |s| == 1 then s[0]
    else
      var m := Max(s[1..]);
      if m <= s[0] then s[0] else m
  }

  function Sum(s: seq<real>): real {
    if |s| == 0 then 0.0 else s[0] + Sum(s[1..])
  }

  function Mean(s: seq<real>): real
    requires |s| > 0
  {
    Sum(s) / (|s| as real)
  }

  /** A zero spread becomes 1, so that a constant column is only shifted. */
  function NonZero(x: real): (r: real)
    ensures r != 0.0
    ensures x != 0.0 ==> r == x
  {
    if x == 0.0 then 1.0 else x
  }

  /** The (offset, scale) pair a fit of the given kind computes from one column. */
  function FitColumn(kind: Kind, c: seq<real>, stats: Statistics): (p: (real, real))
    requires |c| > 0
    ensures p.1 != 0.0
    ensures kind == MinMax ==> p.1 > 0.0
  {
    match kind
    case MinMax => (Min(c), NonZero(Max(c) - Min(c)))
    case Robust => (stats.median(c), NonZero(stats.interquartileRange(c)))
    case Standard => (Mean(c), NonZero(stats.stdDev(c)))
  }

  /** scaler.fit(m): one parameter pair per column of m, each computed from
      that column alone. */
  function Fit(kind: Kind, m: Matrix, rows: nat, cols: nat, stats: Statistics): (s: Affine)
    requires IsMatrix(m, rows, cols) && rows > 0
    ensures s.Valid() && s.Width() == cols
    ensures forall k :: 0 <= k < cols ==>
              (s.offset[k], s.scale[k]) == FitColumn(kind, Column(m, rows, cols, k), stats)
  {
    Affine(
      seq(cols, k requires 0 <= k < cols => FitColumn(kind, Column(m, rows, cols, k), stats).0),
      seq(cols, k requires 0 <= k < cols => FitColumn(kind, Column(m, rows, cols, k), stats).1))
  }

  /** A scaler whose every parameter pair is the fit of its column is the fit. */
  lemma {:induction false} FitFromColumns(kind: Kind, m: Matrix, rows: nat, cols: nat, stats: Statistics, s: Affine)
    requires IsMatrix(m, rows, cols) && rows > 0
    requires |s.offset| == cols && |s.scale| == cols
    requires forall k :: 0 <= k < cols ==>
               (s.offset[k], s.scale[k]) == FitColumn(kind, Column(m, rows, cols, k), stats)
    ensures Fit(kind, m, rows, cols, stats) == s
  {
    var r := Fit(kind, m, rows, cols, stats);
    assert r.offset == s.offset;
    assert r.scale == s.scale;
  }

  /** The min-max fit of a column is its smallest entry and its range: any
      entries lo and hi that bound the column give the fitted pair. */
  lemma {:induction false} MinMaxFitColumn(c: seq<real>, stats: Statistics, iLo: nat, iHi: nat)
    requires iLo < |c| && iHi < |c|
    requires forall i :: 0 <= i < |c| ==> c[iLo] <= c[i] <= c[iHi]
    ensures FitColumn(MinMax, c, stats) == (c[iLo], NonZero(c[iHi] - c[iLo]))
  {
    var lo, hi := Min(c), Max(c);
    assert lo == c[iLo] by {
      assert lo <= c[iLo];
      assert exists i :: 0 <= i < |c| && c[i] == lo;
    }
    assert hi == c[iHi] by {
      assert c[iHi] <= hi;
      assert exists i :: 0 <= i < |c| && c[i] == hi;
    }
  }

  /** Min-max scaling maps every column into [0, 1]; the column minimum goes
      to 0 and, unless the column is constant, the column maximum goes to 1. */
  lemma {:induction false} MinMaxUnitRange(m: Matrix, rows: nat, cols: nat, stats: Statistics)
    requires IsMatrix(m, rows, cols) && rows > 0
    ensures var y := Transform(Fit(MinMax, m, rows, cols, stats), m, rows);
            forall i, k :: 0 <= i < rows && 0 <= k < cols ==> 0.0 <= y[i][k] <= 1.0
    ensures var y := Transform(Fit(MinMax, m, rows, cols, stats), m, rows);
            forall i, k :: 0 <= i < rows && 0 <= k < cols ==>
              (m[i][k] == Min(Column(m, rows, cols, k)) ==> y[i][k] == 0.0)
    ensures var y := Transform(Fit(MinMax, m, rows, cols, stats), m, rows);
            forall i, k :: 0 <= i < rows && 0 <= k < cols ==>
              (m[i][k] == Max(Column(m, rows, cols, k)) != Min(Column(m, rows, cols, k)) ==> y[i][k] == 1.0)
  {
    var s := Fit(MinMax, m, rows, cols, stats);
    var y := Transform(s, m, rows);
    forall i, k | 0 <= i < rows && 0 <= k < cols
      ensures 0.0 <= y[i][k] <= 1.0
      ensures m[i][k] == Min(Column(m, rows, cols, k)) ==> y[i][k] == 0.0
      ensures m[i][k] == Max(Column(m, rows, cols, k)) != Min(Column(m, rows, cols, k)) ==> y[i][k] == 1.0
    {
      var c := Column(m, rows, cols, k);
      var lo, hi := Min(c), Max(c);
      assert c[i] == m[i][k];
      assert lo <= m[i][k] <= hi;
      assert s.offset[k] == lo && s.scale[k] == NonZero(hi - lo);
      UnitInterval(m[i][k], lo, hi);
    }
  }

  /** One entry normalised by the range [lo, hi] that contains it. */
  lemma {:induction false} UnitInterval(x: real, lo: real, hi: real)
    requires lo <= x <= hi
    ensures 0.0 <= Normalize(x, lo, NonZero(hi - lo)) <= 1.0
    ensures x == lo ==> Normalize(x, lo, NonZero(hi - lo)) == 0.0
    ensures x == hi != lo ==> Normalize(x, lo, NonZero(hi - lo)) == 1.0
  {
    if hi != lo {
      var r := hi - lo;
      assert (x - lo) / r * r == x - lo;
    }
  }

  /** A column shifted by c and divided by d. */
  function ShiftScale(s: seq<real>, c: real, d: real): (r: seq<real>)
    requires d != 0.0
    ensures |r| == |s| && forall i :: 0 <= i < |s| ==> r[i] == Normalize(s[i], c, d)
  {
    seq(|s|, i requires 0 <= i < |s| => Normalize(s[i], c, d))
  }

  /** Summing commutes with subtracting the same c from every entry. */
  lemma {:induction false} SumShifted(s: seq<real>, t: seq<real>, c: real)
    requires |t| == |s|
    requires forall i :: 0 <= i < |s| ==> t[i] == s[i] - c
    ensures Sum(t) == Sum(s) - (|s| as real) * c
  {
    if |s| > 0 {
      SumShifted(s[1..], t[1..], c);
      assert (|s| as real) * c == (|s| as real - 1.0) * c + c;
    }
  }

  /** A column shifted by its mean and divided by any nonzero d sums to zero. */
  lemma {:induction false} CentredSumZero(c: seq<real>, d: real)
    requires |c| > 0 && d != 0.0
    ensures Sum(ShiftScale(c, Mean(c), d)) == 0.0
  {
    var mu := Mean(c);
    var y := ShiftScale(c, mu, d);
    var centred := seq(|c|, i requires 0 <= i < |c| => c[i] - mu);
    SumShifted(c, centred, mu);
    assert (|c| as real) * mu == Sum(c);
    forall i | 0 <= i < |c|
      ensures y[i] * d == centred[i]
    {
    }
    SumScaled(centred, y, d);
  }

  /** Standard scaling centres every column: each scaled column sums to zero. */
  lemma {:induction false} StandardZeroMean(m: Matrix, rows: nat, cols: nat, stats: Statistics, k: nat)
    requires IsMatrix(m, rows, cols) && rows > 0 && k < cols
    ensures var s := Fit(Standard, m, rows, cols, stats);
            Sum(Column(Transform(s, m, rows), rows, cols, k)) == 0.0
  {
    var s := Fit(Standard, m, rows, cols, stats);
    var c := Column(m, rows, cols, k);
    var y := Column(Transform(s, m, rows), rows, cols, k);
    assert s.offset[k] == Mean(c);
    assert y == ShiftScale(c, s.offset[k], s.scale[k]);
    CentredSumZero(c, s.scale[k]);
  }

  function Square(x: real): real { x * x }

  /** Entry-wise squares of the deviations from mu. */
  function SquaredDeviations(s: seq<real>, mu: real): (r: seq<real>)
    ensures |r| == |s| && forall i :: 0 <= i < |s| ==> r[i] == Square(s[i] - mu)
  {
    seq(|s|, i requires 0 <= i < |s| => Square(s[i] - mu))
  }

  /** The population variance (numpy's default, ddof = 0). */
  function Variance(s: seq<real>): real
    requires |s| > 0
  {
    Sum(SquaredDeviations(s, Mean(s))) / (|s| as real)
  }

  /** Every entry of t times e is the matching entry of s. Named, like
      Product below, only to help the verifier: a lemma that ensures
      ScaledBy(..) hands it to one that requires it as a single term, instead
      of leaving the solver to match products under a quantifier. */
  predicate ScaledBy(t: seq<real>, s: seq<real>, e: real) {
    |t| == |s| && forall i :: 0 <= i < |s| ==> t[i] * e == s[i]
  }

  /** t * e == s. The product is wrapped only to help the verifier: passing
      Product(..) from one lemma to the next is matched as one term, whereas
      the bare product sends the solver into costly nonlinear arithmetic. */
  predicate Product(t: real, e: real, s: real) {
    t * e == s
  }

  /** Summing commutes with multiplying every entry by the same factor. */
  lemma {:induction false} SumScaled(s: seq<real>, t: seq<real>, e: real)
    requires ScaledBy(t, s, e)
    ensures Product(Sum(t), e, Sum(s))
  {
    if |s| > 0 {
      SumScaled(s[1..], t[1..], e);
      assert Sum(t) * e == t[0] * e + Sum(t[1..]) * e;
    }
  }

  /** Summed, the squared deviations of a column divided by d are those of
      the column divided by d * d. */
  lemma {:induction false} SquaredDeviationsOfScaled(c: seq<real>, mu: real, d: real)
    requires d != 0.0
    ensures Product(Sum(SquaredDeviations(ShiftScale(c, mu, d), 0.0)), Square(d), Sum(SquaredDeviations(c, mu)))
  {
    SquaredDeviationsOfScaledPointwise(c, mu, d);
    SumScaled(SquaredDeviations(c, mu), SquaredDeviations(ShiftScale(c, mu, d), 0.0), Square(d));
  }

  /** The entries behind the lemma above. */
  lemma {:induction false} SquaredDeviationsOfScaledPointwise(c: seq<real>, mu: real, d: real)
    requires d != 0.0
    ensures ScaledBy(SquaredDeviations(ShiftScale(c, mu, d), 0.0), SquaredDeviations(c, mu), Square(d))
  {
    forall i | 0 <= i < |SquaredDeviations(c, mu)|
      ensures SquaredDeviations(ShiftScale(c, mu, d), 0.0)[i] * Square(d) == SquaredDeviations(c, mu)[i]
    {
      SquaredDeviationOfScaledAt(c, mu, d, i);
    }
  }

  /** One entry of the lemmas above. */
  lemma {:induction false} SquaredDeviationOfScaledAt(c: seq<real>, mu: real, d: real, i: nat)
    requires d != 0.0 && i < |c|
    ensures SquaredDeviations(ShiftScale(c, mu, d), 0.0)[i] * Square(d) == SquaredDeviations(c, mu)[i]
  {
    var q := ShiftScale(c, mu, d)[i];
    assert q * d == c[i] - mu;
    assert Square(q - 0.0) * Square(d) == (q * d) * (q * d);
  }

  /** Standard scaling gives every column unit variance, provided the
      supplied standard deviation is the square root of the column's
      (nonzero) population variance. */
  lemma {:induction false} StandardUnitVariance(m: Matrix, rows: nat, cols: nat, stats: Statistics, k: nat)
    requires IsMatrix(m, rows, cols) && rows > 0 && k < cols
    requires var c := Column(m, rows, cols, k);
             Square(stats.stdDev(c)) == Variance(c) && Variance(c) != 0.0
    ensures var s := Fit(Standard, m, rows, cols, stats);
            Variance(Column(Transform(s, m, rows), rows, cols, k)) == 1.0
  {
    var s := Fit(Standard, m, rows, cols, stats);
    var c := Column(m, rows, cols, k);
    var d := stats.stdDev(c);
    assert d != 0.0;
    assert s.offset[k] == Mean(c) && s.scale[k] == d;
    assert Column(Transform(s, m, rows), rows, cols, k) == ShiftScale(c, Mean(c), d);
    StandardisedUnitVariance(c, d);
  }

  /** A column shifted by its mean and divided by the square root of its
      nonzero variance has variance 1. */
  lemma {:induction false} StandardisedUnitVariance(c: seq<real>, d: real)
    requires |c| > 0 && Square(d) == Variance(c) && Variance(c) != 0.0
    ensures d != 0.0 && Variance(ShiftScale(c, Mean(c), d)) == 1.0
  {
    assert d != 0.0;
    VarianceOfStandardised(c, d);
    CancelFactor(Variance(ShiftScale(c, Mean(c), d)), Square(d));
  }

  /** Dividing a column's deviations from its mean by d divides its
      variance by d * d. */
  lemma {:induction false} VarianceOfStandardised(c: seq<real>, d: real)
    requires |c| > 0 && d != 0.0
    ensures Product(Variance(ShiftScale(c, Mean(c), d)), Square(d), Variance(c))
  {
    var y := ShiftScale(c, Mean(c), d);
    CentredVariance(c, d);
    SquaredDeviationsOfScaled(c, Mean(c), d);
    DivideBoth(Sum(SquaredDeviations(y, 0.0)), Sum(SquaredDeviations(c, Mean(c))), Square(d), |c| as real);
  }

  /** A centred column's variance is its mean square. */
  lemma {:induction false} CentredVariance(c: seq<real>, d: real)
    requires |c| > 0 && d != 0.0
    ensures var y := ShiftScale(c, Mean(c), d);
            Variance(y) == Sum(SquaredDeviations(y, 0.0)) / (|c| as real)
  {
    var y := ShiftScale(c, Mean(c), d);
    CentredSumZero(c, d);
    assert Mean(y) == 0.0;
  }

  /** If t * v == total then (t / n) * v == total / n. A step of nonlinear
      arithmetic kept in a lemma of its own so that the solver sees it
      apart from the sequences it is used on. */
  lemma {:induction false} DivideBoth(t: real, total: real, v: real, n: real)
    requires n > 0.0 && Product(t, v, total)
    ensures Product(t / n, v, total / n)
  {
  }

  /** A nonzero v is only fixed by multiplying with 1 (a nonlinear step kept
      apart, as DivideBoth is). */
  lemma {:induction false} CancelFactor(x: real, v: real)
    requires v != 0.0 && Product(x, v, v)
    ensures x == 1.0
  {
    assert (x - 1.0) * v == 0.0;
  }
}
