/** The scaling component of gca_rom: a factory of normalisers, a forward
    scaling with four axis conventions that returns the fitted state and a
    (b, a, 1) tensor, and the inverse that rebuilds the (a, b) matrix. */
module Scaling {
  import opened Matrices
  import opened AffineScaler
  import opened Fitting

  datatype Error =
    | InvalidKind(selector: int)  // no scaler for this selector
    | InvalidMode(mode: int)      // no branch for this scaling type
    | StateMismatch               // a single scaler where a pair is expected, or the reverse
    | ShapeMismatch               // the slice squeezes to fewer than two axes, or a scaler's width does not fit it

  datatype Result<T> = Ok(value: T) | Err(error: Error)

  /** What tensor_scaling returns as `scale`: one fitted scaler for modes 1
      and 2, the two fitted scalers in fit order for modes 3 and 4. */
  datatype State = Single(scaler: Affine) | Composite(first: Affine, second: Affine)

  /** A nonempty rectangular data matrix. */
  predicate IsData(x: Matrix) {
    |x| > 0 && IsMatrix(x, |x|, |x[0]|) && |x[0]| > 0
  }

  /** scaler_functions(k): a fresh, unfitted scaler of the selected kind and its
      name; any other selector leaves the scaler unbound and the call fails. */
  function ScalerFunctions(k: int): (r: Result<(Kind, string)>)
    ensures r.Ok? <==> 1 <= k <= 3
    ensures r.Err? ==> r.error == InvalidKind(k)
    ensures k == 1 ==> r.value == (MinMax, "minmax")
    ensures k == 2 ==> r.value == (Robust, "robust")
    ensures k == 3 ==> r.value == (Standard, "standard")
  {
    if k == 1 then Ok((MinMax, "minmax"))
    else if k == 2 then Ok((Robust, "robust"))
    else if k == 3 then Ok((Standard, "standard"))
    else Err(InvalidKind(k))
  }

  /** tensor_scaling(x, scalingType, scalerName): fits the scaler(s) and
      returns the state and the scaled data laid out as (b, a, 1). */
  function TensorScaling(x: Matrix, scalingType: int, scalerName: int, stats: Statistics)
    : (r: Result<(State, Tensor)>)
    requires IsData(x)
    ensures r.Ok? <==> 1 <= scalerName <= 3 && 1 <= scalingType <= 4
    ensures !(1 <= scalerName <= 3) ==> r == Err(InvalidKind(scalerName))
    ensures 1 <= scalerName <= 3 && !(1 <= scalingType <= 4) ==> r == Err(InvalidMode(scalingType))
    ensures r.Ok? ==> IsTensor(r.value.1, |x[0]|, |x|, 1)
    ensures r.Ok? ==> (r.value.0.Single? <==> scalingType <= 2)
  {
    match ScalerFunctions(scalerName)
    case Err(e) => Err(e)
    case Ok((kind, _)) =>
      var a, b := |x|, |x[0]|;
      if scalingType == 1 then
        var s := Fit(kind, x, a, b, stats);
        Ok((Single(s), Permute210(Unsqueeze(Transform(s, x, a), a, b), 1, a, b)))
      else if scalingType == 2 then
        var xt := Transpose(x, a, b);
        var s := Fit(kind, xt, b, a, stats);
        Ok((Single(s), Permute120(Unsqueeze(Transform(s, xt, b), b, a), 1, b, a)))
      else if scalingType == 3 then
        var xt := Transpose(x, a, b);
        var f := Fit(kind, xt, b, a, stats);
        var temp := Transform(f, xt, b);
        var s := Fit(kind, temp, b, a, stats);
        Ok((Composite(f, s), Permute120(Unsqueeze(Transform(s, temp, b), b, a), 1, b, a)))
      else if scalingType == 4 then
        var s := Fit(kind, x, a, b, stats);
        var temp := Transpose(Transform(s, x, a), a, b);
        var f := Fit(kind, temp, b, a, stats);
        var y := Transpose(Transform(f, temp, b), b, a);
        Ok((Composite(s, f), Permute210(Unsqueeze(y, a, b), 1, a, b)))
      else
        Err(InvalidMode(scalingType))
  }

  /** A nonempty (b, a, c) tensor whose slice [:, :, 0] exists. */
  predicate Sliceable(t: Tensor) {
    |t| > 0 && |t[0]| > 0 && |t[0][0]| > 0 && IsTensor(t, |t|, |t[0]|, |t[0][0]|)
  }

  /** Every stored scaler has one scale per offset, as every fitted one has. */
  predicate WellFormed(state: State) {
    match state
    case Single(s) => |s.scale| == s.Width()
    case Composite(first, second) => |first.scale| == first.Width() && |second.scale| == second.Width()
  }

  /** The widths the stored scalers must have to invert a (b, a) slice in the
      given mode: the scaler applied to the (b, a) slice itself has width a,
      the one applied to its (a, b) transpose has width b. */
  predicate WidthsFit(b: nat, a: nat, state: State, scalingType: int) {
    match state
    case Single(s) =>
      (scalingType == 1 ==> s.Width() == b) && (scalingType == 2 ==> s.Width() == a)
    case Composite(first, second) =>
      (scalingType == 3 ==> first.Width() == a && second.Width() == a) &&
      (scalingType == 4 ==> first.Width() == b && second.Width() == a)
  }

  /** inverse_scaling(t, state, scalingType): reads t[:, :, 0] and undoes the
      scaling, the second-fitted scaler first, back to the (a, b) layout. A
      slice with an axis of length 1 is squeezed to fewer than two axes,
      which the scalers reject. */
  function InverseScaling(t: Tensor, state: State, scalingType: int): (r: Result<Matrix>)
    requires Sliceable(t) && WellFormed(state)
    ensures r.Ok? <==>
              1 <= scalingType <= 4 && (state.Single? <==> scalingType <= 2) &&
              |t| >= 2 && |t[0]| >= 2 && WidthsFit(|t|, |t[0]|, state, scalingType)
    ensures !(1 <= scalingType <= 4) ==> r == Err(InvalidMode(scalingType))
    ensures 1 <= scalingType <= 4 && (state.Single? <==> scalingType > 2) ==> r == Err(StateMismatch)
    ensures 1 <= scalingType <= 4 && (state.Single? <==> scalingType <= 2) &&
            !(|t| >= 2 && |t[0]| >= 2 && WidthsFit(|t|, |t[0]|, state, scalingType)) ==>
              r == Err(ShapeMismatch)
    ensures r.Ok? ==> IsMatrix(r.value, |t[0]|, |t|)
  {
    var b, a := |t|, |t[0]|;
    if !(1 <= scalingType <= 4) then Err(InvalidMode(scalingType))
    else if state.Single? != (scalingType <= 2) then Err(StateMismatch)
    else if b < 2 || a < 2 || !WidthsFit(b, a, state, scalingType) then Err(ShapeMismatch)
    else
      var m := SliceLast0(t, b, a, |t[0][0]|);
      match state
      case Single(s) =>
        if scalingType == 1 then Ok(InverseTransform(s, Transpose(m, b, a), a))
        else Ok(Transpose(InverseTransform(s, m, b), b, a))
      case Composite(first, second) =>
        if scalingType == 3 then
          Ok(Transpose(InverseTransform(first, InverseTransform(second, m, b), b), b, a))
        else
          Ok(InverseTransform(first, Transpose(InverseTransform(second, m, b), b, a), a))
  }

  /** Mode 1 (sample scaling): one parameter pair per column of x; entry
      (i, j) of x, normalised by the pair of column j, lands at [j][i][0]. */
  lemma {:induction false} SampleScalingLayout(x: Matrix, scalerName: int, stats: Statistics)
    requires IsData(x) && 1 <= scalerName <= 3
    ensures var r := TensorScaling(x, 1, scalerName, stats);
            var kind := ScalerFunctions(scalerName).value.0;
            var a, b := |x|, |x[0]|;
            r.Ok? && r.value.0.Single? &&
            var s := r.value.0.scaler;
            s.Valid() && s.Width() == b &&
            (forall j :: 0 <= j < b ==>
               (s.offset[j], s.scale[j]) == FitColumn(kind, Column(x, a, b, j), stats)) &&
            forall i, j :: 0 <= i < a && 0 <= j < b ==>
              r.value.1[j][i][0] == Normalize(x[i][j], s.offset[j], s.scale[j])
  {
    var a, b := |x|, |x[0]|;
    var s := TensorScaling(x, 1, scalerName, stats).value.0.scaler;
    var y := Transform(s, x, a);
    assert TensorScaling(x, 1, scalerName, stats).value.1 == Permute210(Unsqueeze(y, a, b), 1, a, b);
  }

  /** Mode 2 (feature scaling): fitted on the transpose, so one parameter
      pair per row of x; entry (i, j), normalised by the pair of row i,
      lands at [j][i][0]. */
  lemma {:induction false} FeatureScalingLayout(x: Matrix, scalerName: int, stats: Statistics)
    requires IsData(x) && 1 <= scalerName <= 3
    ensures var r := TensorScaling(x, 2, scalerName, stats);
            var kind := ScalerFunctions(scalerName).value.0;
            var a, b := |x|, |x[0]|;
            r.Ok? && r.value.0.Single? &&
            var s := r.value.0.scaler;
            s.Valid() && s.Width() == a &&
            (forall i :: 0 <= i < a ==> (s.offset[i], s.scale[i]) == FitColumn(kind, x[i], stats)) &&
            forall i, j :: 0 <= i < a && 0 <= j < b ==>
              r.value.1[j][i][0] == Normalize(x[i][j], s.offset[i], s.scale[i])
  {
    var a, b := |x|, |x[0]|;
    var xt := Transpose(x, a, b);
    var s := TensorScaling(x, 2, scalerName, stats).value.0.scaler;
    var z := Transform(s, xt, b);
    assert TensorScaling(x, 2, scalerName, stats).value.1 == Permute120(Unsqueeze(z, b, a), 1, b, a);
    forall i | 0 <= i < a
      ensures Column(xt, b, a, i) == x[i]
    {
    }
  }

  /** Mode 3 (the "feature-sample" branch): both scalers are fitted on
      (b, a)-shaped data, so both have one parameter pair per row of x; the
      second is fitted on the rows already normalised by the first. */
  lemma {:induction false} FeatureSampleScalingLayout(x: Matrix, scalerName: int, stats: Statistics)
    requires IsData(x) && 1 <= scalerName <= 3
    ensures var r := TensorScaling(x, 3, scalerName, stats);
            var kind := ScalerFunctions(scalerName).value.0;
            var a, b := |x|, |x[0]|;
            r.Ok? && r.value.0.Composite? &&
            var f, s := r.value.0.first, r.value.0.second;
            f.Valid() && s.Valid() && f.Width() == a && s.Width() == a &&
            (forall i :: 0 <= i < a ==> (f.offset[i], f.scale[i]) == FitColumn(kind, x[i], stats)) &&
            (forall i :: 0 <= i < a ==>
               (s.offset[i], s.scale[i]) == FitColumn(kind, ShiftScale(x[i], f.offset[i], f.scale[i]), stats)) &&
            forall i, j :: 0 <= i < a && 0 <= j < b ==>
              r.value.1[j][i][0] ==
                Normalize(Normalize(x[i][j], f.offset[i], f.scale[i]), s.offset[i], s.scale[i])
  {
    var a, b := |x|, |x[0]|;
    var xt := Transpose(x, a, b);
    var st := TensorScaling(x, 3, scalerName, stats).value.0;
    var f, s := st.first, st.second;
    var temp := Transform(f, xt, b);
    var z := Transform(s, temp, b);
    assert TensorScaling(x, 3, scalerName, stats).value.1 == Permute120(Unsqueeze(z, b, a), 1, b, a);
    forall i | 0 <= i < a
      ensures Column(xt, b, a, i) == x[i]
      ensures Column(temp, b, a, i) == ShiftScale(x[i], f.offset[i], f.scale[i])
    {
    }
  }

  /** Mode 4 (sample-feature scaling): the first scaler has one parameter
      pair per column of x, the second one per row of the column-normalised
      x. */
  lemma {:induction false} SampleFeatureScalingLayout(x: Matrix, scalerName: int, stats: Statistics)
    requires IsData(x) && 1 <= scalerName <= 3
    ensures var r := TensorScaling(x, 4, scalerName, stats);
            var kind := ScalerFunctions(scalerName).value.0;
            var a, b := |x|, |x[0]|;
            r.Ok? && r.value.0.Composite? &&
            var s, f := r.value.0.first, r.value.0.second;
            s.Valid() && f.Valid() && s.Width() == b && f.Width() == a &&
            (forall j :: 0 <= j < b ==>
               (s.offset[j], s.scale[j]) == FitColumn(kind, Column(x, a, b, j), stats)) &&
            (forall i :: 0 <= i < a ==>
               (f.offset[i], f.scale[i]) == FitColumn(kind, Transform(s, x, a)[i], stats)) &&
            forall i, j :: 0 <= i < a && 0 <= j < b ==>
              r.value.1[j][i][0] ==
                Normalize(Normalize(x[i][j], s.offset[j], s.scale[j]), f.offset[i], f.scale[i])
  {
    var a, b := |x|, |x[0]|;
    var st := TensorScaling(x, 4, scalerName, stats).value.0;
    var s, f := st.first, st.second;
    var temp := Transpose(Transform(s, x, a), a, b);
    var y := Transpose(Transform(f, temp, b), b, a);
    assert TensorScaling(x, 4, scalerName, stats).value.1 == Permute210(Unsqueeze(y, a, b), 1, a, b);
    forall i | 0 <= i < a
      ensures Column(temp, b, a, i) == Transform(s, x, a)[i]
    {
    }
  }

  /** Mode 1 inverse: entry (i, j) of the result is t[j][i][0] mapped back
      with the pair of column j. */
  lemma {:induction false} SampleInverseLayout(t: Tensor, state: State)
    requires Sliceable(t) && WellFormed(state) && InverseScaling(t, state, 1).Ok?
    ensures var r := InverseScaling(t, state, 1).value;
            var s := state.scaler;
            forall i, j :: 0 <= i < |t[0]| && 0 <= j < |t| ==>
              r[i][j] == t[j][i][0] * s.scale[j] + s.offset[j]
  {
  }

  /** Mode 2 inverse: entry (i, j) of the result is t[j][i][0] mapped back
      with the pair of row i. */
  lemma {:induction false} FeatureInverseLayout(t: Tensor, state: State)
    requires Sliceable(t) && WellFormed(state) && InverseScaling(t, state, 2).Ok?
    ensures var r := InverseScaling(t, state, 2).value;
            var s := state.scaler;
            forall i, j :: 0 <= i < |t[0]| && 0 <= j < |t| ==>
              r[i][j] == t[j][i][0] * s.scale[i] + s.offset[i]
  {
  }

  /** Mode 3 inverse: entry (i, j) of the result is t[j][i][0] mapped back
      with the second pair of row i, then with the first pair of row i. */
  lemma {:induction false} FeatureSampleInverseLayout(t: Tensor, state: State)
    requires Sliceable(t) && WellFormed(state) && InverseScaling(t, state, 3).Ok?
    ensures var r := InverseScaling(t, state, 3).value;
            var f, s := state.first, state.second;
            forall i, j :: 0 <= i < |t[0]| && 0 <= j < |t| ==>
              r[i][j] == (t[j][i][0] * s.scale[i] + s.offset[i]) * f.scale[i] + f.offset[i]
  {
  }

  /** Mode 4 inverse: entry (i, j) of the result is t[j][i][0] mapped back
      with the pair of row i of the second scaler, then with the pair of
      column j of the first. */
  lemma {:induction false} SampleFeatureInverseLayout(t: Tensor, state: State)
    requires Sliceable(t) && WellFormed(state) && InverseScaling(t, state, 4).Ok?
    ensures var r := InverseScaling(t, state, 4).value;
            var s, f := state.first, state.second;
            forall i, j :: 0 <= i < |t[0]| && 0 <= j < |t| ==>
              r[i][j] == (t[j][i][0] * f.scale[i] + f.offset[i]) * s.scale[j] + s.offset[j]
  {
  }

  /** Round trip: for every mode, every kind and every data matrix with at
      least two rows and two columns, inverse_scaling given the state and the
      tensor that tensor_scaling returned rebuilds the matrix exactly. */
  lemma {:induction false} RoundTrip(x: Matrix, scalingType: int, scalerName: int, stats: Statistics)
    requires IsData(x) && |x| >= 2 && |x[0]| >= 2
    requires 1 <= scalerName <= 3 && 1 <= scalingType <= 4
    ensures var r := TensorScaling(x, scalingType, scalerName, stats);
            r.Ok? && Sliceable(r.value.1) && WellFormed(r.value.0) &&
            InverseScaling(r.value.1, r.value.0, scalingType) == Ok(x)
  {
    var a, b := |x|, |x[0]|;
    var kind := ScalerFunctions(scalerName).value.0;
    var r := TensorScaling(x, scalingType, scalerName, stats);
    var t := r.value.1;
    assert Sliceable(t);
    if scalingType == 1 {
      var s := Fit(kind, x, a, b, stats);
      var y := Transform(s, x, a);
      assert r.value.0 == Single(s) && t == Permute210(Unsqueeze(y, a, b), 1, a, b);
      SliceOfPermute210(y, a, b);
      TransposeTwice(y, a, b);
      InverseAfterTransform(s, x, a);
    } else if scalingType == 2 {
      var xt := Transpose(x, a, b);
      var s := Fit(kind, xt, b, a, stats);
      var z := Transform(s, xt, b);
      assert r.value.0 == Single(s) && t == Permute120(Unsqueeze(z, b, a), 1, b, a);
      SliceOfPermute120(z, b, a);
      InverseAfterTransform(s, xt, b);
      TransposeTwice(x, a, b);
    } else if scalingType == 3 {
      var xt := Transpose(x, a, b);
      var f := Fit(kind, xt, b, a, stats);
      var temp := Transform(f, xt, b);
      var s := Fit(kind, temp, b, a, stats);
      var z := Transform(s, temp, b);
      assert r.value.0 == Composite(f, s) && t == Permute120(Unsqueeze(z, b, a), 1, b, a);
      SliceOfPermute120(z, b, a);
      InverseAfterTransform(s, temp, b);
      InverseAfterTransform(f, xt, b);
      TransposeTwice(x, a, b);
    } else {
      var s := Fit(kind, x, a, b, stats);
      var sx := Transform(s, x, a);
      var temp := Transpose(sx, a, b);
      var f := Fit(kind, temp, b, a, stats);
      var fz := Transform(f, temp, b);
      var y := Transpose(fz, b, a);
      assert r.value.0 == Composite(s, f) && t == Permute210(Unsqueeze(y, a, b), 1, a, b);
      SliceOfPermute210(y, a, b);
      TransposeTwice(fz, b, a);
      InverseAfterTransform(f, temp, b);
      TransposeTwice(sx, a, b);
      InverseAfterTransform(s, x, a);
    }
  }

  /** Data with a single row or a single column cannot be inverted: the
      slice of its scaled tensor squeezes to one axis. */
  lemma {:induction false} DegenerateRoundTripFails(x: Matrix, scalingType: int, scalerName: int, stats: Statistics)
    requires IsData(x) && (|x| == 1 || |x[0]| == 1)
    requires 1 <= scalerName <= 3 && 1 <= scalingType <= 4
    ensures var r := TensorScaling(x, scalingType, scalerName, stats);
            r.Ok? && Sliceable(r.value.1) && WellFormed(r.value.0) &&
            InverseScaling(r.value.1, r.value.0, scalingType) == Err(ShapeMismatch)
  {
  }

  /** inverse_scaling reads only the slice [:, :, 0]: two tensors that agree
      there are inverted alike. */
  lemma {:induction false} InverseReadsSliceOnly(t: Tensor, u: Tensor, state: State, scalingType: int)
    requires Sliceable(t) && Sliceable(u) && |u| == |t| && |u[0]| == |t[0]| && WellFormed(state)
    requires forall j, i :: 0 <= j < |t| && 0 <= i < |t[0]| ==> t[j][i][0] == u[j][i][0]
    ensures InverseScaling(t, state, scalingType) == InverseScaling(u, state, scalingType)
  {
    MatrixExt(SliceLast0(t, |t|, |t[0]|, |t[0][0]|), SliceLast0(u, |u|, |u[0]|, |u[0][0]|), |t|, |t[0]|);
  }

  // Worked examples. Each scenario is one lemma (MinMaxSampleScalingExample,
  // SampleFeatureInverseOrderMatters) split into helper lemmas for its fit,
  // transform and layout steps. Each lemma takes its literal matrix as a
  // parameter fixed by its requires clause. Both choices keep every proof
  // obligation small enough for the verifier; evaluated in one piece, the
  // literal computations are too costly for it.

  /** The min-max fit of the columns of [[0, 10], [5, 10], [10, 10]]. */
  lemma {:induction false} MinMaxExampleFit(x: Matrix, stats: Statistics)
    requires x == [[0.0, 10.0], [5.0, 10.0], [10.0, 10.0]]
    ensures Fit(MinMax, x, 3, 2, stats) == Affine([0.0, 10.0], [10.0, 1.0])
  {
    MinMaxExampleColumns(x, stats);
    FitFromColumns(MinMax, x, 3, 2, stats, Affine([0.0, 10.0], [10.0, 1.0]));
  }

  /** The two column fits of the example above. */
  lemma {:induction false} MinMaxExampleColumns(x: Matrix, stats: Statistics)
    requires x == [[0.0, 10.0], [5.0, 10.0], [10.0, 10.0]]
    ensures FitColumn(MinMax, Column(x, 3, 2, 0), stats) == (0.0, 10.0)
    ensures FitColumn(MinMax, Column(x, 3, 2, 1), stats) == (10.0, 1.0)
  {
    var c0, c1 := Column(x, 3, 2, 0), Column(x, 3, 2, 1);
    assert c0 == [0.0, 5.0, 10.0];
    assert c1 == [10.0, 10.0, 10.0];
    MinMaxFitColumn(c0, stats, 0, 2);
    MinMaxFitColumn(c1, stats, 0, 0);
  }

  /** Min-max sample scaling of the 3 x 2 matrix [[0, 10], [5, 10], [10, 10]]:
      column 0 becomes [0, 0.5, 1]; the constant column 1 has range 0, which
      the fit replaces by 1, so it becomes [0, 0, 0]. */
  lemma {:induction false} MinMaxSampleScalingExample(x: Matrix, stats: Statistics)
    requires x == [[0.0, 10.0], [5.0, 10.0], [10.0, 10.0]]
    ensures TensorScaling(x, 1, 1, stats)
            == Ok((Single(Affine([0.0, 10.0], [10.0, 1.0])),
                   [[[0.0], [0.5], [1.0]], [[0.0], [0.0], [0.0]]]))
  {
    MinMaxExampleFit(x, stats);
    MinMaxExampleTransform(x);
    MinMaxExampleLayout(Transform(Affine([0.0, 10.0], [10.0, 1.0]), x, 3));
  }

  /** The transform step of the example above. */
  lemma {:induction false} MinMaxExampleTransform(x: Matrix)
    requires x == [[0.0, 10.0], [5.0, 10.0], [10.0, 10.0]]
    ensures Transform(Affine([0.0, 10.0], [10.0, 1.0]), x, 3) == [[0.0, 0.0], [0.5, 0.0], [1.0, 0.0]]
  {
    var y := Transform(Affine([0.0, 10.0], [10.0, 1.0]), x, 3);
    assert y[0] == [0.0, 0.0] && y[1] == [0.5, 0.0] && y[2] == [1.0, 0.0];
  }

  /** The layout step of the example: the (b, a, 1) tensor of the scaled matrix. */
  lemma {:induction false} MinMaxExampleLayout(y: Matrix)
    requires y == [[0.0, 0.0], [0.5, 0.0], [1.0, 0.0]]
    ensures Permute210(Unsqueeze(y, 3, 2), 1, 3, 2) == [[[0.0], [0.5], [1.0]], [[0.0], [0.0], [0.0]]]
  {
    var u := Permute210(Unsqueeze(y, 3, 2), 1, 3, 2);
    assert u[0][0] == [0.0] && u[0][1] == [0.5] && u[0][2] == [1.0];
    assert u[1][0] == [0.0] && u[1][1] == [0.0] && u[1][2] == [0.0];
    assert u[0] == [[0.0], [0.5], [1.0]] && u[1] == [[0.0], [0.0], [0.0]];
  }

  /** The composite state must be undone in reverse fit order: min-max
      sample-feature scaling of [[0, 1], [2, 4]] fits s = (offsets [0, 1],
      scales [2, 3]) on the columns and f = (offsets [0, 1], scales [1, 1])
      on the rows of the result, and scales every entry to 0; inverse_scaling
      rebuilds the matrix, while undoing s before f gives [[0, 1], [1, 2]]. */
  lemma {:induction false} SampleFeatureInverseOrderMatters(x: Matrix, stats: Statistics)
    requires x == [[0.0, 1.0], [2.0, 4.0]]
    ensures var s, f := Affine([0.0, 1.0], [2.0, 3.0]), Affine([0.0, 1.0], [1.0, 1.0]);
            var t := [[[0.0], [0.0]], [[0.0], [0.0]]];
            TensorScaling(x, 4, 1, stats) == Ok((Composite(s, f), t)) &&
            Sliceable(t) && WellFormed(Composite(s, f)) &&
            InverseScaling(t, Composite(s, f), 4) == Ok(x) &&
            InverseTransform(f, Transpose(InverseTransform(s, SliceLast0(t, 2, 2, 1), 2), 2, 2), 2)
              == [[0.0, 1.0], [1.0, 2.0]]
  {
    var s, f := Affine([0.0, 1.0], [2.0, 3.0]), Affine([0.0, 1.0], [1.0, 1.0]);
    var t := [[[0.0], [0.0]], [[0.0], [0.0]]];
    OrderExampleForward(x, stats);
    RoundTrip(x, 4, 1, stats);
    OrderExampleWrongInverse(t);
  }

  /** The forward half of the example above. */
  lemma {:induction false} OrderExampleForward(x: Matrix, stats: Statistics)
    requires x == [[0.0, 1.0], [2.0, 4.0]]
    ensures TensorScaling(x, 4, 1, stats)
            == Ok((Composite(Affine([0.0, 1.0], [2.0, 3.0]), Affine([0.0, 1.0], [1.0, 1.0])),
                   [[[0.0], [0.0]], [[0.0], [0.0]]]))
  {
    var s, f := Affine([0.0, 1.0], [2.0, 3.0]), Affine([0.0, 1.0], [1.0, 1.0]);
    var temp, y := [[0.0, 1.0], [0.0, 1.0]], [[0.0, 0.0], [0.0, 0.0]];
    OrderExampleColumnFit(x, stats);
    OrderExampleRowFit(temp, stats);
    OrderExampleTransforms(x, temp, y);
    OrderExampleLayout(y);
  }

  /** The two transforms of the example above. */
  lemma {:induction false} OrderExampleTransforms(x: Matrix, temp: Matrix, y: Matrix)
    requires x == [[0.0, 1.0], [2.0, 4.0]] && temp == [[0.0, 1.0], [0.0, 1.0]]
    requires y == [[0.0, 0.0], [0.0, 0.0]]
    ensures Transpose(Transform(Affine([0.0, 1.0], [2.0, 3.0]), x, 2), 2, 2) == temp
    ensures Transpose(Transform(Affine([0.0, 1.0], [1.0, 1.0]), temp, 2), 2, 2) == y
  {
    var u := Transpose(Transform(Affine([0.0, 1.0], [2.0, 3.0]), x, 2), 2, 2);
    assert u[0] == [0.0, 1.0] && u[1] == [0.0, 1.0];
    var v := Transpose(Transform(Affine([0.0, 1.0], [1.0, 1.0]), temp, 2), 2, 2);
    assert v[0] == [0.0, 0.0] && v[1] == [0.0, 0.0];
  }

  /** The first fit of the example above, on the columns of x. */
  lemma {:induction false} OrderExampleColumnFit(x: Matrix, stats: Statistics)
    requires x == [[0.0, 1.0], [2.0, 4.0]]
    ensures Fit(MinMax, x, 2, 2, stats) == Affine([0.0, 1.0], [2.0, 3.0])
  {
    var c0, c1 := Column(x, 2, 2, 0), Column(x, 2, 2, 1);
    assert c0 == [0.0, 2.0];
    assert c1 == [1.0, 4.0];
    MinMaxFitColumn(c0, stats, 0, 1);
    assert FitColumn(MinMax, c0, stats) == (0.0, 2.0);
    MinMaxFitColumn(c1, stats, 0, 1);
    assert FitColumn(MinMax, c1, stats) == (1.0, 3.0);
    FitFromColumns(MinMax, x, 2, 2, stats, Affine([0.0, 1.0], [2.0, 3.0]));
  }

  /** The second fit of the example above, on the columns of temp, the
      transpose of the column-scaled x. */
  lemma {:induction false} OrderExampleRowFit(temp: Matrix, stats: Statistics)
    requires temp == [[0.0, 1.0], [0.0, 1.0]]
    ensures Fit(MinMax, temp, 2, 2, stats) == Affine([0.0, 1.0], [1.0, 1.0])
  {
    var c0, c1 := Column(temp, 2, 2, 0), Column(temp, 2, 2, 1);
    assert c0 == [0.0, 0.0];
    assert c1 == [1.0, 1.0];
    MinMaxFitColumn(c0, stats, 0, 0);
    assert FitColumn(MinMax, c0, stats) == (0.0, 1.0);
    MinMaxFitColumn(c1, stats, 0, 0);
    assert FitColumn(MinMax, c1, stats) == (1.0, 1.0);
    FitFromColumns(MinMax, temp, 2, 2, stats, Affine([0.0, 1.0], [1.0, 1.0]));
  }

  /** The layout step of the example above: a 2 x 2 zero matrix becomes a
      (2, 2, 1) zero tensor. */
  lemma {:induction false} OrderExampleLayout(y: Matrix)
    requires y == [[0.0, 0.0], [0.0, 0.0]]
    ensures Permute210(Unsqueeze(y, 2, 2), 1, 2, 2) == [[[0.0], [0.0]], [[0.0], [0.0]]]
  {
    var u := Permute210(Unsqueeze(y, 2, 2), 1, 2, 2);
    assert u[0][0] == [0.0] && u[0][1] == [0.0] && u[1][0] == [0.0] && u[1][1] == [0.0];
    assert u[0] == [[0.0], [0.0]] && u[1] == [[0.0], [0.0]];
  }

  /** The wrong-order half of the example above: undoing the column scaler
      first and the row scaler second. */
  lemma {:induction false} OrderExampleWrongInverse(t: Tensor)
    requires t == [[[0.0], [0.0]], [[0.0], [0.0]]]
    ensures IsTensor(t, 2, 2, 1)
    ensures var s, f := Affine([0.0, 1.0], [2.0, 3.0]), Affine([0.0, 1.0], [1.0, 1.0]);
            InverseTransform(f, Transpose(InverseTransform(s, SliceLast0(t, 2, 2, 1), 2), 2, 2), 2)
              == [[0.0, 1.0], [1.0, 2.0]]
  {
    var s, f := Affine([0.0, 1.0], [2.0, 3.0]), Affine([0.0, 1.0], [1.0, 1.0]);
    var m := SliceLast0(t, 2, 2, 1);
    assert m[0] == [0.0, 0.0] && m[1] == [0.0, 0.0];
    var v := Transpose(InverseTransform(s, m, 2), 2, 2);
    assert v[0] == [0.0, 0.0] && v[1] == [1.0, 1.0];
    var w := InverseTransform(f, v, 2);
    assert w[0] == [0.0, 1.0] && w[1] == [1.0, 2.0];
  }
}
