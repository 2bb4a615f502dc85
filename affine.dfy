/** A fitted scaler: one affine map per column, y = (x - offset) / scale,
    undone by x = y * scale + offset. MinMaxScaler, RobustScaler and
    StandardScaler all reduce to this form once fitted. */
module AffineScaler {
  import opened Matrices

  datatype Affine = Affine(offset: seq<real>, scale: seq<real>)
  {
    /** Number of columns the scaler was fitted on. */
    function Width(): nat { |offset| }

    /** One parameter pair per column and no zero scale. */
    predicate Valid() {
      |offset| == |scale| && forall k :: 0 <= k < |scale| ==> scale[k] != 0.0
    }
  }

  /** The affine map of one column entry. */
  function Normalize(x: real, offset: real, scale: real): real
    requires scale != 0.0
  {
    (x - offset) / scale
  }

  /** scaler.transform(m): normalises every entry of column k with the k-th pair. */
  function Transform(s: Affine, m: Matrix, rows: nat): (r: Matrix)
    requires s.Valid() && IsMatrix(m, rows, s.Width())
    ensures IsMatrix(r, rows, s.Width())
    ensures forall i, k :: 0 <= i < rows && 0 <= k < s.Width() ==>
              r[i][k] == Normalize(m[i][k], s.offset[k], s.scale[k])
  {
    seq(rows, i requires 0 <= i < rows =>
      seq(s.Width(), k requires 0 <= k < s.Width() => Normalize(m[i][k], s.offset[k], s.scale[k])))
  }

  /** scaler.inverse_transform(m): maps every entry of column k back with the k-th pair. */
  function InverseTransform(s: Affine, m: Matrix, rows: nat): (r: Matrix)
    requires |s.scale| == s.Width() && IsMatrix(m, rows, s.Width())
    ensures IsMatrix(r, rows, s.Width())
    ensures forall i, k :: 0 <= i < rows && 0 <= k < s.Width() ==>
              r[i][k] == m[i][k] * s.scale[k] + s.offset[k]
  {
    seq(rows, i requires 0 <= i < rows =>
      seq(s.Width(), k requires 0 <= k < s.Width() => m[i][k] * s.scale[k] + s.offset[k]))
  }

  /** inverse_transform undoes transform exactly. */
  lemma {:induction false} InverseAfterTransform(s: Affine, m: Matrix, rows: nat)
    requires s.Valid() && IsMatrix(m, rows, s.Width())
    ensures InverseTransform(s, Transform(s, m, rows), rows) == m
  {
    var y := Transform(s, m, rows);
    var x := InverseTransform(s, y, rows);
    forall i, k | 0 <= i < rows && 0 <= k < s.Width()
      ensures x[i][k] == m[i][k]
    {
      var c := s.scale[k];
      assert y[i][k] == (m[i][k] - s.offset[k]) / c;
      assert y[i][k] * c == m[i][k] - s.offset[k];
    }
    MatrixExt(x, m, rows, s.Width());
  }

  /** transform undoes inverse_transform exactly: the two are mutual inverses. */
  lemma {:induction false} TransformAfterInverse(s: Affine, m: Matrix, rows: nat)
    requires s.Valid() && IsMatrix(m, rows, s.Width())
    ensures Transform(s, InverseTransform(s, m, rows), rows) == m
  {
    var x := InverseTransform(s, m, rows);
    var y := Transform(s, x, rows);
    forall i, k | 0 <= i < rows && 0 <= k < s.Width()
      ensures y[i][k] == m[i][k]
    {
      var c := s.scale[k];
      assert x[i][k] - s.offset[k] == m[i][k] * c;
    }
    MatrixExt(y, m, rows, s.Width());
  }
}
