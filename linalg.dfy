/**
 * The numpy operations the contact stepper uses, on vectors and row-major
 * matrices of reals: elementwise arithmetic, dot products, boolean-mask
 * indexing (`a[mask]`, `a[mask] = v`), `np.maximum` and `np.any`.
 */
module LinAlg {

  type Vector = seq<real>
  type Matrix = seq<seq<real>>

  /** An r-by-c matrix. */
  ghost predicate IsMatrix(A: Matrix, r: nat, c: nat)
  {
    |A| == r && forall i :: 0 <= i < r ==> |A[i]| == c
  }

  function Zeros(n: nat): (r: Vector)
    ensures |r| == n && forall i :: 0 <= i < n ==> r[i] == 0.0
  {
    seq(n, _ => 0.0)
  }

  function Add(a: Vector, b: Vector): (r: Vector)
    requires |a| == |b|
    ensures |r| == |a| && forall i :: 0 <= i < |a| ==> r[i] == a[i] + b[i]
  {
    seq(|a|, i requires 0 <= i < |a| => a[i] + b[i])
  }

  function Sub(a: Vector, b: Vector): (r: Vector)
    requires |a| == |b|
    ensures |r| == |a| && forall i :: 0 <= i < |a| ==> r[i] == a[i] - b[i]
  {
    seq(|a|, i requires 0 <= i < |a| => a[i] - b[i])
  }

  function Scale(c: real, a: Vector): (r: Vector)
    ensures |r| == |a| && forall i :: 0 <= i < |a| ==> r[i] == c * a[i]
  {
    seq(|a|, i requires 0 <= i < |a| => c * a[i])
  }

  function Neg(a: Vector): (r: Vector)
    ensures |r| == |a| && forall i :: 0 <= i < |a| ==> r[i] == -a[i]
  {
    seq(|a|, i requires 0 <= i < |a| => -a[i])
  }

  function Dot(a: Vector, b: Vector): real
    requires |a| == |b|
  {
    if |a| == 0 then 0.0 else a[0] * b[0] + Dot(a[1..], b[1..])
  }

  lemma Dot2(a: Vector, b: Vector)
    requires |a| == |b| == 2
    ensures Dot(a, b) == a[0] * b[0] + a[1] * b[1]
  {
    assert Dot(a[1..][1..], b[1..][1..]) == 0.0;
  }

  lemma Dot3(a: Vector, b: Vector)
    requires |a| == |b| == 3
    ensures Dot(a, b) == a[0] * b[0] + a[1] * b[1] + a[2] * b[2]
  {
    Dot2(a[1..], b[1..]);
  }

  lemma Dot5(a: Vector, b: Vector)
    requires |a| == |b| == 5
    ensures Dot(a, b) == a[0] * b[0] + a[1] * b[1] + a[2] * b[2] + a[3] * b[3] + a[4] * b[4]
  {
    var a1, b1 := a[1..], b[1..];
    var a2, b2 := a1[1..], b1[1..];
    var a3, b3 := a2[1..], b2[1..];
    Dot2(a3, b3);
    assert Dot(a2, b2) == a[2] * b[2] + a[3] * b[3] + a[4] * b[4];
    assert Dot(a1, b1) == a[1] * b[1] + Dot(a2, b2);
  }

  /** A dot product with a zero vector vanishes. */
  lemma {:induction false} DotZeros(a: Vector)
    ensures Dot(a, Zeros(|a|)) == 0.0
  {
    if |a| > 0 {
      assert Zeros(|a|)[1..] == Zeros(|a| - 1);
      DotZeros(a[1..]);
    }
  }

  /** Matrix-vector product `A @ v`. */
  function MatVec(A: Matrix, v: Vector): (r: Vector)
    requires forall i :: 0 <= i < |A| ==> |A[i]| == |v|
    ensures |r| == |A| && forall i :: 0 <= i < |A| ==> r[i] == Dot(A[i], v)
  {
    seq(|A|, i requires 0 <= i < |A| => Dot(A[i], v))
  }

  lemma MatVecZeros(A: Matrix, c: nat)
    requires forall i :: 0 <= i < |A| ==> |A[i]| == c
    ensures MatVec(A, Zeros(c)) == Zeros(|A|)
  {
    forall i | 0 <= i < |A| ensures MatVec(A, Zeros(c))[i] == 0.0 {
      DotZeros(A[i]);
    }
  }

  /** `A.T` for an |A|-by-c matrix. */
  function Transpose(A: Matrix, c: nat): (T: Matrix)
    requires forall i :: 0 <= i < |A| ==> |A[i]| == c
    ensures IsMatrix(T, c, |A|)
    ensures forall j, i :: 0 <= j < c && 0 <= i < |A| ==> T[j][i] == A[i][j]
  {
    seq(c, j requires 0 <= j < c => seq(|A|, i requires 0 <= i < |A| => A[i][j]))
  }

  /** Matrix product `A @ B` with B of width c. */
  function MatMul(A: Matrix, B: Matrix, c: nat): (P: Matrix)
    requires forall i :: 0 <= i < |A| ==> |A[i]| == |B|
    requires forall k :: 0 <= k < |B| ==> |B[k]| == c
    ensures IsMatrix(P, |A|, c)
  {
    var Bt := Transpose(B, c);
    seq(|A|, i requires 0 <= i < |A| => MatVec(Bt, A[i]))
  }

  /** Number of true entries of a mask. */
  function Count(mask: seq<bool>): (k: nat)
    ensures k <= |mask|
  {
    if mask == [] then 0 else (if mask[0] then 1 else 0) + Count(mask[1..])
  }

  /** `np.any(mask)`. */
  predicate Any(mask: seq<bool>)
  {
    exists i :: 0 <= i < |mask| && mask[i]
  }

  /** Boolean indexing `s[mask]`: the entries at true positions, in order. */
  function Select<T>(mask: seq<bool>, s: seq<T>): (r: seq<T>)
    requires |mask| == |s|
    ensures |r| == Count(mask)
  {
    if mask == [] then []
    else if mask[0] then [s[0]] + Select(mask[1..], s[1..])
    else Select(mask[1..], s[1..])
  }

  /** Row mask `A[mask]` of a matrix of width c keeps the width. */
  function SelectRows(mask: seq<bool>, A: Matrix, c: nat): (r: Matrix)
    requires |mask| == |A| && forall i :: 0 <= i < |A| ==> |A[i]| == c
    ensures r == Select(mask, A) && IsMatrix(r, Count(mask), c)
  {
    SelectRowsWidth(mask, A, c);
    Select(mask, A)
  }

  lemma {:induction false} SelectRowsWidth(mask: seq<bool>, A: Matrix, c: nat)
    requires |mask| == |A| && forall i :: 0 <= i < |A| ==> |A[i]| == c
    ensures forall k :: 0 <= k < Count(mask) ==> |Select(mask, A)[k]| == c
  {
    if mask != [] {
      SelectRowsWidth(mask[1..], A[1..], c);
    }
  }

  /** Column mask `A[:, mask]`. */
  function SelectCols(A: Matrix, mask: seq<bool>): (r: Matrix)
    requires forall i :: 0 <= i < |A| ==> |A[i]| == |mask|
    ensures IsMatrix(r, |A|, Count(mask))
  {
    seq(|A|, i requires 0 <= i < |A| => Select(mask, A[i]))
  }

  /** `z = np.zeros(len(mask)); z[mask] = vals`. */
  function Scatter(mask: seq<bool>, vals: Vector): (r: Vector)
    requires |vals| == Count(mask)
    ensures |r| == |mask|
  {
    if mask == [] then []
    else if mask[0] then [vals[0]] + Scatter(mask[1..], vals[1..])
    else [0.0] + Scatter(mask[1..], vals)
  }

  /** Entry i of a scatter is zero off the mask and the Count(mask[..i])-th value on it. */
  lemma {:induction false} ScatterAt(mask: seq<bool>, vals: Vector, i: nat)
    requires |vals| == Count(mask) && i < |mask|
    ensures Count(mask[..i]) + (if mask[i] then 1 else 0) <= |vals|
    ensures Scatter(mask, vals)[i] == if mask[i] then vals[Count(mask[..i])] else 0.0
  {
    if i > 0 {
      assert mask[1..][..i - 1] == mask[..i][1..];
      assert Count(mask[..i]) == (if mask[0] then 1 else 0) + Count(mask[1..][..i - 1]);
      if mask[0] {
        ScatterAt(mask[1..], vals[1..], i - 1);
        assert Scatter(mask, vals)[i] == Scatter(mask[1..], vals[1..])[i - 1];
      } else {
        ScatterAt(mask[1..], vals, i - 1);
        assert Scatter(mask, vals)[i] == Scatter(mask[1..], vals)[i - 1];
      }
    } else {
      assert mask[..0] == [];
    }
  }

  /** Reading back the masked entries of a scatter returns the scattered values. */
  lemma {:induction false} SelectScatter(mask: seq<bool>, vals: Vector)
    requires |vals| == Count(mask)
    ensures Select(mask, Scatter(mask, vals)) == vals
  {
    if mask != [] {
      if mask[0] {
        SelectScatter(mask[1..], vals[1..]);
      } else {
        SelectScatter(mask[1..], vals);
      }
    }
  }

  /** A scatter of non-negative values is non-negative. */
  lemma ScatterNonNegative(mask: seq<bool>, vals: Vector)
    requires |vals| == Count(mask) && forall k :: 0 <= k < |vals| ==> vals[k] >= 0.0
    ensures forall i :: 0 <= i < |mask| ==> Scatter(mask, vals)[i] >= 0.0
  {
    forall i | 0 <= i < |mask| ensures Scatter(mask, vals)[i] >= 0.0 {
      ScatterAt(mask, vals, i);
    }
  }

  // ---------------------------------------------------------------------------
  // In-place numpy updates

  /** `a += b` */
  method AddInPlace(a: array<real>, b: Vector)
    requires a.Length == |b|
    modifies a
    ensures a[..] == Add(old(a[..]), b)
  {
    forall i | 0 <= i < a.Length {
      a[i] := a[i] + b[i];
    }
  }

  /** `a[mask] = vals`: the masked slots receive vals in order, the rest keep their values. */
  method MaskedAssign(a: array<real>, mask: seq<bool>, vals: Vector)
    requires a.Length == |mask| && |vals| == Count(mask)
    modifies a
    ensures forall i :: 0 <= i < |mask| && !mask[i] ==> a[i] == old(a[i])
    ensures forall i :: 0 <= i < |mask| && mask[i] ==> Count(mask[..i]) < |vals| && a[i] == vals[Count(mask[..i])]
  {
    forall i | 0 <= i < |mask| && mask[i] ensures Count(mask[..i]) < |vals| {
      ScatterAt(mask, vals, i);
    }
    forall i | 0 <= i < |mask| && mask[i] {
      a[i] := vals[Count(mask[..i])];
    }
  }

  /** `a[start::2] = vals` for an array of 2 * |vals| slots. */
  method StridedAssign(a: array<real>, start: nat, vals: Vector)
    requires start < 2 && a.Length == 2 * |vals|
    modifies a
    ensures forall k :: 0 <= k < a.Length && k % 2 == start ==> a[k] == vals[k / 2]
    ensures forall k :: 0 <= k < a.Length && k % 2 != start ==> a[k] == old(a[k])
  {
    forall k | 0 <= k < a.Length && k % 2 == start {
      a[k] := vals[k / 2];
    }
  }
}
