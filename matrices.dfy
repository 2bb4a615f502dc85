/** Dense matrices and rank-3 tensors as nested sequences, and the few
    reshaping operations the scaling code applies to them: transposition,
    adding a leading unit axis (unsqueeze at dimension 0), the two axis
    permutations it uses, and taking the slice at index 0 of the last axis. */
module Matrices {

  type Matrix = seq<seq<real>>
  type Tensor = seq<seq<seq<real>>>

  /** m has `rows` rows of `cols` entries each. */
  predicate IsMatrix(m: Matrix, rows: nat, cols: nat) {
    |m| == rows && forall i :: 0 <= i < rows ==> |m[i]| == cols
  }

  /** t has shape (d0, d1, d2). */
  predicate IsTensor(t: Tensor, d0: nat, d1: nat, d2: nat) {
    |t| == d0 && forall i :: 0 <= i < d0 ==> IsMatrix(t[i], d1, d2)
  }

  /** The matrix transpose (torch.t). */
  function Transpose(m: Matrix, rows: nat, cols: nat): (r: Matrix)
    requires IsMatrix(m, rows, cols)
    ensures IsMatrix(r, cols, rows)
    ensures forall j, i :: 0 <= j < cols && 0 <= i < rows ==> r[j][i] == m[i][j]
  {
    seq(cols, j requires 0 <= j < cols => seq(rows, i requires 0 <= i < rows => m[i][j]))
  }

  /** Adds a leading axis of length 1 (torch.unsqueeze(m, 0)). */
  function Unsqueeze(m: Matrix, rows: nat, cols: nat): (t: Tensor)
    requires IsMatrix(m, rows, cols)
    ensures IsTensor(t, 1, rows, cols) && t[0] == m
  {
    [m]
  }

  /** Reverses the three axes (tensor.permute(2, 1, 0)). */
  function Permute210(t: Tensor, d0: nat, d1: nat, d2: nat): (r: Tensor)
    requires IsTensor(t, d0, d1, d2)
    ensures IsTensor(r, d2, d1, d0)
    ensures forall k, j, i :: 0 <= k < d2 && 0 <= j < d1 && 0 <= i < d0 ==> r[k][j][i] == t[i][j][k]
  {
    seq(d2, k requires 0 <= k < d2 =>
      seq(d1, j requires 0 <= j < d1 =>
        seq(d0, i requires 0 <= i < d0 => t[i][j][k])))
  }

  /** Moves the first axis to the end (tensor.permute(1, 2, 0)). */
  function Permute120(t: Tensor, d0: nat, d1: nat, d2: nat): (r: Tensor)
    requires IsTensor(t, d0, d1, d2)
    ensures IsTensor(r, d1, d2, d0)
    ensures forall j, k, i :: 0 <= j < d1 && 0 <= k < d2 && 0 <= i < d0 ==> r[j][k][i] == t[i][j][k]
  {
    seq(d1, j requires 0 <= j < d1 =>
      seq(d2, k requires 0 <= k < d2 =>
        seq(d0, i requires 0 <= i < d0 => t[i][j][k])))
  }

  /** The slice tensor[:, :, 0]. */
  function SliceLast0(t: Tensor, d0: nat, d1: nat, d2: nat): (r: Matrix)
    requires IsTensor(t, d0, d1, d2) && d2 >= 1
    ensures IsMatrix(r, d0, d1)
    ensures forall i, j :: 0 <= i < d0 && 0 <= j < d1 ==> r[i][j] == t[i][j][0]
  {
    seq(d0, i requires 0 <= i < d0 => seq(d1, j requires 0 <= j < d1 => t[i][j][0]))
  }

  /** Two matrices of the same shape that agree at every index are equal. */
  lemma {:induction false} MatrixExt(m: Matrix, n: Matrix, rows: nat, cols: nat)
    requires IsMatrix(m, rows, cols) && IsMatrix(n, rows, cols)
    requires forall i, j :: 0 <= i < rows && 0 <= j < cols ==> m[i][j] == n[i][j]
    ensures m == n
  {
    forall i | 0 <= i < rows
      ensures m[i] == n[i]
    {
      assert forall j :: 0 <= j < cols ==> m[i][j] == n[i][j];
    }
  }

  /** Transposing twice gives back the matrix. */
  lemma {:induction false} TransposeTwice(m: Matrix, rows: nat, cols: nat)
    requires IsMatrix(m, rows, cols)
    ensures Transpose(Transpose(m, rows, cols), cols, rows) == m
  {
    MatrixExt(Transpose(Transpose(m, rows, cols), cols, rows), m, rows, cols);
  }

  /** unsqueeze(m, 0).permute(2, 1, 0)[:, :, 0] is the transpose of m. */
  lemma {:induction false} SliceOfPermute210(m: Matrix, rows: nat, cols: nat)
    requires IsMatrix(m, rows, cols)
    ensures SliceLast0(Permute210(Unsqueeze(m, rows, cols), 1, rows, cols), cols, rows, 1)
            == Transpose(m, rows, cols)
  {
    var t := Unsqueeze(m, rows, cols);
    var s := SliceLast0(Permute210(t, 1, rows, cols), cols, rows, 1);
    forall j, i | 0 <= j < cols && 0 <= i < rows
      ensures s[j][i] == m[i][j]
    {
      assert s[j][i] == t[0][i][j];
    }
    MatrixExt(s, Transpose(m, rows, cols), cols, rows);
  }

  /** unsqueeze(m, 0).permute(1, 2, 0)[:, :, 0] is m itself. */
  lemma {:induction false} SliceOfPermute120(m: Matrix, rows: nat, cols: nat)
    requires IsMatrix(m, rows, cols)
    ensures SliceLast0(Permute120(Unsqueeze(m, rows, cols), 1, rows, cols), rows, cols, 1) == m
  {
    var t := Unsqueeze(m, rows, cols);
    var s := SliceLast0(Permute120(t, 1, rows, cols), rows, cols, 1);
    forall i, j | 0 <= i < rows && 0 <= j < cols
      ensures s[i][j] == m[i][j]
    {
      assert s[i][j] == t[0][i][j];
    }
    MatrixExt(s, m, rows, cols);
  }
}
