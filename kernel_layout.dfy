/**
 * The layout change `_load_4d_var` applies to a kernel run: the flat run is
 * reshaped (row-major) to the REVERSE of the variable's declared shape and its
 * axes are then permuted by [2, 3, 1, 0]. Only indices are computed; values are
 * moved, never combined.
 */
module KernelLayout {

  /** Declared shape (s0, s1, s2, s3) of a convolution kernel variable. */
  datatype KernelShape = KernelShape(s0: nat, s1: nat, s2: nat, s3: nat)

  /** `np.prod(variable.shape)`. */
  function Volume(k: KernelShape): nat
  {
    k.s0 * k.s1 * k.s2 * k.s3
  }

  type Array4<T> = seq<seq<seq<seq<T>>>>

  /** `a` has the dimensions d0 x d1 x d2 x d3. */
  ghost predicate HasDims<T>(a: Array4<T>, d0: nat, d1: nat, d2: nat, d3: nat)
  {
    |a| == d0 &&
    (forall x0 :: 0 <= x0 < d0 ==> |a[x0]| == d1) &&
    (forall x0, x1 :: 0 <= x0 < d0 && 0 <= x1 < d1 ==> |a[x0][x1]| == d2) &&
    (forall x0, x1, x2 :: 0 <= x0 < d0 && 0 <= x1 < d1 && 0 <= x2 < d2 ==> |a[x0][x1][x2]| == d3)
  }

  /** Row-major position of (x0, x1, x2, x3) in an array of dimensions (_, d1, d2, d3). */
  function RowMajor(d1: nat, d2: nat, d3: nat, x0: nat, x1: nat, x2: nat, x3: nat): nat
  {
    ((x0 * d1 + x1) * d2 + x2) * d3 + x3
  }

  lemma MulStep(x: nat, y: nat, a: nat, b: nat)
    requires x < a && y < b
    ensures x * b + y < a * b
  {
    assert x * b + y < x * b + b == (x + 1) * b;
    assert (x + 1) * b <= a * b;
  }

  lemma RowMajorBound(d0: nat, d1: nat, d2: nat, d3: nat, x0: nat, x1: nat, x2: nat, x3: nat)
    requires x0 < d0 && x1 < d1 && x2 < d2 && x3 < d3
    ensures RowMajor(d1, d2, d3, x0, x1, x2, x3) < d0 * d1 * d2 * d3
  {
    MulStep(x0, x1, d0, d1);
    MulStep(x0 * d1 + x1, x2, d0 * d1, d2);
    MulStep((x0 * d1 + x1) * d2 + x2, x3, d0 * d1 * d2, d3);
  }

  /** `flat.reshape((d0, d1, d2, d3))`. */
  function Reshape<T>(flat: seq<T>, d0: nat, d1: nat, d2: nat, d3: nat): (a: Array4<T>)
    requires |flat| == d0 * d1 * d2 * d3
  {
    seq(d0, x0 requires 0 <= x0 < d0 =>
      seq(d1, x1 requires 0 <= x1 < d1 =>
        seq(d2, x2 requires 0 <= x2 < d2 =>
          seq(d3, x3 requires 0 <= x3 < d3 =>
            RowMajorBound(d0, d1, d2, d3, x0, x1, x2, x3);
            flat[RowMajor(d1, d2, d3, x0, x1, x2, x3)]))))
  }

  /** `a.transpose([2, 3, 1, 0])` for `a` of dimensions d0 x d1 x d2 x d3: the result is d2 x d3 x d1 x d0. */
  function Transpose2310<T>(a: Array4<T>, d0: nat, d1: nat, d2: nat, d3: nat): (t: Array4<T>)
    requires HasDims(a, d0, d1, d2, d3)
  {
    seq(d2, y0 requires 0 <= y0 < d2 =>
      seq(d3, y1 requires 0 <= y1 < d3 =>
        seq(d1, y2 requires 0 <= y2 < d1 =>
          seq(d0, y3 requires 0 <= y3 < d0 => a[y3][y2][y0][y1]))))
  }

  /** The array `_load_4d_var` assigns for a run of `Volume(k)` values. */
  function KernelArray<T>(flat: seq<T>, k: KernelShape): (t: Array4<T>)
    requires |flat| == Volume(k)
  {
    Transpose2310(Reshape(flat, k.s3, k.s2, k.s1, k.s0), k.s3, k.s2, k.s1, k.s0)
  }

  lemma ReshapeDims<T>(flat: seq<T>, d0: nat, d1: nat, d2: nat, d3: nat)
    requires |flat| == d0 * d1 * d2 * d3
    ensures HasDims(Reshape(flat, d0, d1, d2, d3), d0, d1, d2, d3)
  {
  }

  lemma ReshapeCell<T>(flat: seq<T>, d0: nat, d1: nat, d2: nat, d3: nat, x0: nat, x1: nat, x2: nat, x3: nat)
    requires |flat| == d0 * d1 * d2 * d3
    requires x0 < d0 && x1 < d1 && x2 < d2 && x3 < d3
    ensures RowMajor(d1, d2, d3, x0, x1, x2, x3) < |flat|
    ensures Reshape(flat, d0, d1, d2, d3)[x0][x1][x2][x3] == flat[RowMajor(d1, d2, d3, x0, x1, x2, x3)]
  {
    RowMajorBound(d0, d1, d2, d3, x0, x1, x2, x3);
  }

  lemma TransposeDims<T>(a: Array4<T>, d0: nat, d1: nat, d2: nat, d3: nat)
    requires HasDims(a, d0, d1, d2, d3)
    ensures HasDims(Transpose2310(a, d0, d1, d2, d3), d2, d3, d1, d0)
  {
  }

  lemma TransposeCell<T>(a: Array4<T>, d0: nat, d1: nat, d2: nat, d3: nat, y0: nat, y1: nat, y2: nat, y3: nat)
    requires HasDims(a, d0, d1, d2, d3)
    requires y0 < d2 && y1 < d3 && y2 < d1 && y3 < d0
    ensures Transpose2310(a, d0, d1, d2, d3)[y0][y1][y2][y3] == a[y3][y2][y0][y1]
  {
  }

  /**
   * The assigned array has shape (s1, s0, s2, s3), and its element [i, j, k, l]
   * is the run's value at RowMajor(s2, s1, s0, l, k, i, j) = ((l*s2 + k)*s1 + i)*s0 + j.
   */
  lemma KernelIndexFormula<T>(flat: seq<T>, ks: KernelShape, i: nat, j: nat, k: nat, l: nat)
    requires |flat| == Volume(ks)
    requires i < ks.s1 && j < ks.s0 && k < ks.s2 && l < ks.s3
    ensures HasDims(KernelArray(flat, ks), ks.s1, ks.s0, ks.s2, ks.s3)
    ensures RowMajor(ks.s2, ks.s1, ks.s0, l, k, i, j) < |flat|
    ensures KernelArray(flat, ks)[i][j][k][l] == flat[RowMajor(ks.s2, ks.s1, ks.s0, l, k, i, j)]
  {
    assert |flat| == ks.s3 * ks.s2 * ks.s1 * ks.s0 by {
      assert Volume(ks) == ks.s3 * ks.s2 * ks.s1 * ks.s0;
    }
    var a := Reshape(flat, ks.s3, ks.s2, ks.s1, ks.s0);
    ReshapeDims(flat, ks.s3, ks.s2, ks.s1, ks.s0);
    ReshapeCell(flat, ks.s3, ks.s2, ks.s1, ks.s0, l, k, i, j);
    TransposeDims(a, ks.s3, ks.s2, ks.s1, ks.s0);
    TransposeCell(a, ks.s3, ks.s2, ks.s1, ks.s0, i, j, k, l);
  }

  lemma DivBelow(m: nat, a: nat, b: nat)
    requires b > 0 && m < a * b
    ensures m / b < a
  {
  }

  /** A non-empty kernel has no zero dimension. */
  lemma VolumePositive(ks: KernelShape)
    requires Volume(ks) > 0
    ensures ks.s0 > 0 && ks.s1 > 0 && ks.s2 > 0 && ks.s3 > 0
  {
  }

  /** Euclidean division of n by d. */
  lemma DivMod(n: nat, d: nat)
    requires d > 0
    ensures n == (n / d) * d + n % d && n % d < d
  {
  }

  lemma MulBoth(x: int, y: int, z: int)
    requires x == y
    ensures x * z == y * z
  {
  }

  /** Dividing m successively by s0, s1 and s2 and keeping the remainders recovers m. */
  lemma Recompose(m: nat, s0: nat, s1: nat, s2: nat)
    requires s0 > 0 && s1 > 0 && s2 > 0
    ensures RowMajor(s2, s1, s0, m / s0 / s1 / s2, m / s0 / s1 % s2, m / s0 % s1, m % s0) == m
  {
    var t1 := m / s0;
    var t2 := t1 / s1;
    DivMod(m, s0);
    DivMod(t1, s1);
    DivMod(t2, s2);
    MulBoth(t2 / s2 * s2 + t2 % s2, t2, s1);
    MulBoth((t2 / s2 * s2 + t2 % s2) * s1 + t1 % s1, t1, s0);
  }

  /** The outermost quotient stays below s3. */
  lemma QuotientBelow(ks: KernelShape, m: nat)
    requires m < Volume(ks)
    ensures ks.s0 > 0 && ks.s1 > 0 && ks.s2 > 0
    ensures m / ks.s0 / ks.s1 / ks.s2 < ks.s3
  {
    VolumePositive(ks);
    assert m < ks.s3 * ks.s2 * ks.s1 * ks.s0 by {
      assert Volume(ks) == ks.s3 * ks.s2 * ks.s1 * ks.s0;
    }
    DivBelow(m, ks.s3 * ks.s2 * ks.s1, ks.s0);
    DivBelow(m / ks.s0, ks.s3 * ks.s2, ks.s1);
    DivBelow(m / ks.s0 / ks.s1, ks.s3, ks.s2);
  }

  /** The cell of the assigned array that receives the run's m-th value. */
  function KernelCell(ks: KernelShape, m: nat): (cell: (nat, nat, nat, nat))
    requires m < Volume(ks)
    ensures cell.0 < ks.s1 && cell.1 < ks.s0 && cell.2 < ks.s2 && cell.3 < ks.s3
    ensures RowMajor(ks.s2, ks.s1, ks.s0, cell.3, cell.2, cell.0, cell.1) == m
  {
    QuotientBelow(ks, m);
    Recompose(m, ks.s0, ks.s1, ks.s2);
    var t1: nat := m / ks.s0;
    var t2: nat := t1 / ks.s1;
    (t1 % ks.s1, m % ks.s0, t2 % ks.s2, t2 / ks.s2)
  }

  /** Every value of the run lands in the assigned array: the index map is onto, hence a bijection. */
  lemma KernelKeepsEveryValue<T>(flat: seq<T>, ks: KernelShape, m: nat)
    requires |flat| == Volume(ks) && m < |flat|
    ensures var c := KernelCell(ks, m);
      KernelArray(flat, ks)[c.0][c.1][c.2][c.3] == flat[m]
  {
    var c := KernelCell(ks, m);
    KernelIndexFormula(flat, ks, c.0, c.1, c.2, c.3);
  }
}
