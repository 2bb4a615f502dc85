# gca_rom scaling, modelled in Dafny

This project models the data-scaling component of gca_rom (`gca_rom/scaling.py`).
A snapshot matrix `x` of shape (a, b) is normalised before training and restored
afterwards:

- `scaler_functions(k)` picks one of three per-axis normalisers: min-max, robust
  or standard.
- `tensor_scaling(x, scaling_type, scaler_name)` fits the normaliser in one of
  four axis conventions. It returns the fitted state and the scaled data,
  laid out as a (b, a, 1) tensor.
  - Mode 1 (sample): one fit on the columns of `x`.
  - Mode 2 (feature): one fit on the rows of `x`.
  - Mode 3 (feature-sample): the rows are fitted twice, the second time on
    the already scaled rows.
  - Mode 4 (sample-feature): the columns are fitted first, then the rows of
    the result.
- `inverse_scaling(t, state, scaling_type)` reads the slice `t[:, :, 0]`. It
  undoes the second-fitted scaler first, then the first, and restores the
  (a, b) layout.

The model is pure, as the source is: datatypes, functions and lemmas over
unbounded reals.

- `Matrices` models the tensor reshaping used by the source: `torch.t`,
  `unsqueeze(·, 0)`, `permute(2, 1, 0)`, `permute(1, 2, 0)` and `[:, :, 0]`.
- `AffineScaler` models a fitted scaler. Each column has an affine map
  `y = (x - offset) / scale`, with inverse `x = y * scale + offset`.
  MinMaxScaler, RobustScaler and StandardScaler all reduce to this form once
  fitted.
- `Fitting` models how each kind computes its per-column parameter pair:
  - min-max: the minimum and the range;
  - robust: the median and the interquartile range;
  - standard: the mean and the standard deviation.
- `Scaling` models the three functions of the source file. They return a
  `Result` whose error cases are the ways the Python code fails:
  - `InvalidKind`: a selector other than 1, 2 or 3 leaves `sc_fun` unbound.
  - `InvalidMode`: a mode other than 1–4 leaves `scale` or `rescaled_data`
    unbound.
  - `StateMismatch`: a list of scalers where one is expected, or the reverse.
  - `ShapeMismatch`: the slice squeezes to fewer than two axes, or a stored
    scaler's width does not match the axis it is applied to.

The main results are as follows.

- Round trip: for every mode, every kind and every data matrix with at least
  two rows and two columns, `inverse_scaling` applied to the output of
  `tensor_scaling` rebuilds the matrix exactly.
- With a single row or a single column, the round trip ends in
  `ShapeMismatch`.
- The inverse reads only the slice `[:, :, 0]`. Each mode maps every entry of
  that slice back with the stored pairs of its row or column, whichever tensor
  it is given.
- The scaled entries land where each mode puts them, and each scaler is
  fitted on the axis its branch uses (per row, twice, in mode 3).
- Min-max scaling maps every column into [0, 1].
- Standard scaling gives every column a zero sum and, given the true standard
  deviation, gives every non-constant column unit variance.
- A worked example shows that undoing the composite state in fit order,
  instead of reverse order, does not restore the data.

## Model

| member | source | states |
|---|---|---|
| Matrices.Transpose | gca_rom/scaling.py:27 | `torch.t`: the result has the swapped shape and entry [j][i] is entry [i][j] of the input |
| Matrices.Unsqueeze | gca_rom/scaling.py:24 | `unsqueeze(·, 0)` adds a leading axis of length 1 holding the matrix |
| Matrices.Permute210 | gca_rom/scaling.py:24 | `permute(2, 1, 0)` reverses the three axes: result [k][j][i] is input [i][j][k] |
| Matrices.Permute120 | gca_rom/scaling.py:28 | `permute(1, 2, 0)` moves the first axis last: result [j][k][i] is input [i][j][k] |
| Matrices.SliceLast0 | gca_rom/scaling.py:50 | `tensor[:, :, 0]` has the first two axes of the tensor, and entry [i][j] is tensor entry [i][j][0] |
| Matrices.TransposeTwice | gca_rom/scaling.py:27-28 | transposing twice gives back the matrix |
| Matrices.SliceOfPermute210 | gca_rom/scaling.py:24 | slice 0 of the mode 1 and mode 4 layout (unsqueeze, then permute(2, 1, 0)) is the transpose of the laid-out matrix |
| Matrices.SliceOfPermute120 | gca_rom/scaling.py:28 | slice 0 of the mode 2 and mode 3 layout (unsqueeze, then permute(1, 2, 0)) is the laid-out matrix itself |
| AffineScaler.Transform | gca_rom/scaling.py:24 | `scaler.transform`: the shape is kept and entry (i, k) becomes (x − offset[k]) / scale[k] |
| AffineScaler.InverseTransform | gca_rom/scaling.py:50 | `scaler.inverse_transform`: the shape is kept and entry (i, k) becomes y · scale[k] + offset[k] |
| AffineScaler.InverseAfterTransform | gca_rom/scaling.py:50 | inverse_transform undoes transform exactly, for every valid scaler and matrix of its width |
| AffineScaler.TransformAfterInverse | gca_rom/scaling.py:50 | transform undoes inverse_transform exactly |
| Fitting.Min | gca_rom/scaling.py:7 | the column minimum is an entry of the column and bounds every entry from below |
| Fitting.Max | gca_rom/scaling.py:7 | the column maximum is an entry of the column and bounds every entry from above |
| Fitting.FitColumn | gca_rom/scaling.py:5-15 | each kind's pair (offset, scale) for one column has a nonzero scale; min-max has a positive one |
| Fitting.Fit | gca_rom/scaling.py:23 | `scaler.fit(m)` gives a valid scaler with one pair per column of m, each pair computed from its own column alone |
| Fitting.FitFromColumns | gca_rom/scaling.py:23 | a scaler whose every pair is the fit of its column equals the fit of the matrix |
| Fitting.MinMaxFitColumn | gca_rom/scaling.py:7 | the min-max pair of a column is its least entry and its range (a zero range becomes 1) |
| Fitting.MinMaxUnitRange | gca_rom/scaling.py:7 | min-max scaling maps every entry into [0, 1]; the column minimum maps to 0, and the column maximum maps to 1 unless the column is constant |
| Fitting.UnitInterval | gca_rom/scaling.py:7 | one entry between lo and hi, normalised by the range, lies in [0, 1], with lo at 0 and hi at 1 |
| Fitting.SumShifted | gca_rom/scaling.py:13 | subtracting c from every entry lowers the sum by n · c |
| Fitting.SumScaled | gca_rom/scaling.py:13 | multiplying every entry by e multiplies the sum by e |
| Fitting.CentredSumZero | gca_rom/scaling.py:13 | a column shifted by its mean and divided by any nonzero d sums to 0 |
| Fitting.StandardZeroMean | gca_rom/scaling.py:13 | every column of a standard-scaled matrix sums to 0 |
| Fitting.SquaredDeviationsOfScaled | gca_rom/scaling.py:13 | dividing the deviations by d divides the sum of their squares by d² |
| Fitting.SquaredDeviationsOfScaledPointwise | gca_rom/scaling.py:13 | entry by entry, a squared scaled deviation times d² is the squared deviation |
| Fitting.SquaredDeviationOfScaledAt | gca_rom/scaling.py:13 | the same for one entry |
| Fitting.VarianceOfStandardised | gca_rom/scaling.py:13 | centring a column and dividing it by d divides its variance by d² |
| Fitting.CentredVariance | gca_rom/scaling.py:13 | the variance of a centred column is its mean square |
| Fitting.StandardisedUnitVariance | gca_rom/scaling.py:13 | a column centred and divided by the square root of its nonzero variance has variance 1 |
| Fitting.StandardUnitVariance | gca_rom/scaling.py:13 | given the population standard deviation, every non-constant column of a standard-scaled matrix has variance 1 |
| Scaling.ScalerFunctions | gca_rom/scaling.py:5-15 | selectors 1, 2 and 3 give min-max, robust and standard with names "minmax", "robust" and "standard"; any other selector gives InvalidKind |
| Scaling.TensorScaling | gca_rom/scaling.py:18-44 | succeeds exactly when both selectors are valid; a bad kind is reported before a bad mode; the data has shape (b, a, 1); the state is a single scaler in modes 1–2 and a pair in modes 3–4 |
| Scaling.InverseScaling | gca_rom/scaling.py:47-64 | succeeds exactly when the mode is valid, the state's variant matches it, both slice axes have length ≥ 2 and the widths fit; otherwise InvalidMode, then StateMismatch, then ShapeMismatch; the result has shape (a, b) |
| Scaling.SampleScalingLayout | gca_rom/scaling.py:21-24 | mode 1 fits one pair per column of x, and entry (i, j), normalised by the pair of column j, lands at [j][i][0] |
| Scaling.FeatureScalingLayout | gca_rom/scaling.py:25-28 | mode 2 fits one pair per row of x, and entry (i, j), normalised by the pair of row i, lands at [j][i][0] |
| Scaling.FeatureSampleScalingLayout | gca_rom/scaling.py:29-35 | mode 3 fits rows twice, the second fit on the normalised rows; the state is the pair in fit order, and entry (i, j) is normalised by both pairs of row i |
| Scaling.SampleFeatureScalingLayout | gca_rom/scaling.py:36-43 | mode 4 fits columns, then the rows of the column-normalised x; the state is the pair in fit order, and entry (i, j) is normalised by column j's pair, then row i's pair |
| Scaling.RoundTrip | gca_rom/scaling.py:18-64 | for all four modes, all three kinds and every data matrix with at least 2 rows and 2 columns, inverting the forward output returns exactly x |
| Scaling.DegenerateRoundTripFails | gca_rom/scaling.py:47-64 | with a single row or a single column, the forward step succeeds but the inverse fails with ShapeMismatch |
| Scaling.InverseReadsSliceOnly | gca_rom/scaling.py:47-64 | two tensors of the same shape that agree on [:, :, 0] are inverted alike |
| Scaling.SampleInverseLayout | gca_rom/scaling.py:48-50 | a successful mode 1 inverse maps t[j][i][0] back with column j's pair: entry (i, j) is t[j][i][0] · scale[j] + offset[j] |
| Scaling.FeatureInverseLayout | gca_rom/scaling.py:51-53 | a successful mode 2 inverse maps t[j][i][0] back with row i's pair: entry (i, j) is t[j][i][0] · scale[i] + offset[i] |
| Scaling.FeatureSampleInverseLayout | gca_rom/scaling.py:54-58 | a successful mode 3 inverse undoes the second scaler first and then the first, both with row i's pairs: (t[j][i][0] · second.scale[i] + second.offset[i]) · first.scale[i] + first.offset[i] |
| Scaling.SampleFeatureInverseLayout | gca_rom/scaling.py:59-63 | a successful mode 4 inverse undoes the second scaler with row i's pair, then the first with column j's pair: (t[j][i][0] · second.scale[i] + second.offset[i]) · first.scale[j] + first.offset[j] |
| Scaling.MinMaxSampleScalingExample | gca_rom/scaling.py:21-24 | min-max sample scaling of [[0, 10], [5, 10], [10, 10]] fits offsets [0, 10] and scales [10, 1] (the constant column's zero range becomes 1), and gives the tensor [[[0], [0.5], [1]], [[0], [0], [0]]]; the constant column maps to 0 (helpers MinMaxExampleColumns, MinMaxExampleFit, MinMaxExampleTransform and MinMaxExampleLayout prove the steps) |
| Scaling.SampleFeatureInverseOrderMatters | gca_rom/scaling.py:36-64 | min-max mode 4 on [[0, 1], [2, 4]] gives state (offsets [0, 1], scales [2, 3]), then (offsets [0, 1], scales [1, 1]), and a zero tensor; the inverse restores x, while undoing in fit order gives [[0, 1], [1, 2]] (helpers OrderExampleForward, OrderExampleColumnFit, OrderExampleRowFit, OrderExampleTransforms, OrderExampleLayout and OrderExampleWrongInverse prove the steps) |

## Left out

- The standard deviation, the median and the interquartile range are a
  `Statistics` parameter of three functions on a column. sklearn computes
  them, and their numerics are not modelled. The minimum, maximum and mean
  are computed in the model.
- `NonZero` follows sklearn's policy of replacing a zero spread by 1, so a
  constant column is only shifted. sklearn also replaces spreads that are
  merely close to zero, which the model does not.
- MinMaxScaler stores `scale_ = 1 / range` and `min_ = -min / range`, and
  multiplies by the first and adds the second. The model uses the equal
  form `(x - min) / range`.
- Floating point: all arithmetic is on exact reals. The round trip is exact
  here, whereas the program is exact only up to rounding.
- NaN handling, dtype conversion (`torch.tensor`, `.numpy()`, `.detach()`)
  and the copy semantics of sklearn and torch are not modelled.
- `tensor_scaling` calls `scaler_functions` twice, to get two independent
  unfitted scalers. The model uses one `Kind` for both: fitting is a
  function here, so the two cannot interfere.
- `int(scaler_name)` on a string is not modelled. The selector is an
  integer.
- Empty data is excluded by the precondition `IsData`, because sklearn
  rejects it when fitting. A ragged `x` cannot arise from a torch tensor and
  is excluded too.
- `Scaling.InverseScaling` requires a rectangular tensor with at least one
  entry on each axis. An empty tensor is not modelled, because a nested
  sequence cannot carry the length of an axis after an empty one. In the
  program, an empty last axis makes `[:, :, 0]` raise an index error. An
  empty first or second axis slices to an empty matrix, which sklearn's
  `inverse_transform` rejects. It also requires stored scalers with one scale per offset, as
  every fitted scaler has.
- `Scaling.InverseScaling` reports ShapeMismatch for every width mismatch.
  numpy broadcasting would silently accept a scaler fitted on one feature
  applied to a wider slice.
- `Fitting.StandardUnitVariance`: unit variance is proved only under the
  hypothesis that the supplied standard deviation squares to the
  population variance. That is what sklearn computes, but the statistic
  itself is a parameter.
- The robust kind has no property beyond the round trip: median and
  interquartile range are parameters.
- `gca_rom/loader.py` and `gca_rom/pde.py`, the callers of this component,
  are not part of this model.
