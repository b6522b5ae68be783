/** The value-level meaning of a TMatrix<int> of side N: a sequence of N
    rows in which row i holds N - i elements (the columns i..N-1 of an
    upper-triangular matrix), with matrix + and - taken row by row. */
module MatrixArith {
  import opened Errors
  import VectorArith

  /** Construction rule of TMatrix(size). */
  function CheckMatrixArgs(n: int): (r: Outcome)
    ensures r.Pass? <==> 0 <= n <= MAX_MATRIX_SIZE
    ensures r.Fail? ==> r.error == InvalidSize
  {
    if n < 0 || n > MAX_MATRIX_SIZE then Fail(InvalidSize) else Pass
  }

  /** The cases the matrix construction tests exercise. */
  lemma ConstructionCases()
    ensures CheckMatrixArgs(5).Pass?
    ensures CheckMatrixArgs(MAX_MATRIX_SIZE + 1) == Fail(InvalidSize)
    ensures CheckMatrixArgs(-5) == Fail(InvalidSize)
  {
  }

  /** Row i of a matrix of side |c| has |c| - i elements. */
  predicate IsTriangular(c: seq<seq<int>>)
  {
    forall i :: 0 <= i < |c| ==> |c[i]| == |c| - i
  }

  /** The rows of a freshly built matrix of side n: all zero. */
  function ZeroTriangle(n: nat): (c: seq<seq<int>>)
    ensures |c| == n && IsTriangular(c)
  {
    seq(n, i requires 0 <= i < n => VectorArith.Zeros(n - i))
  }

  /** m[i][j]: the row index is checked first, then the column offset
      against the row's own size. */
  function At(c: seq<seq<int>>, i: int, j: int): (r: Result<int>)
    ensures r.Success? <==> 0 <= i < |c| && 0 <= j < |c[i]|
    ensures r.Success? ==> r.value == c[i][j]
    ensures r.Failure? ==> r.error == OutOfRange
  {
    if 0 <= i < |c| then VectorArith.At(c[i], j) else Failure(OutOfRange)
  }

  /** m[i][j] = x on a position that exists. */
  function Update(c: seq<seq<int>>, i: nat, j: nat, x: int): (d: seq<seq<int>>)
    requires i < |c| && j < |c[i]|
    ensures |d| == |c| && forall k :: 0 <= k < |c| ==> |d[k]| == |c[k]|
    ensures d[i][j] == x
    ensures forall k, l :: 0 <= k < |c| && 0 <= l < |c[k]| && (k, l) != (i, j) ==> d[k][l] == c[k][l]
  {
    c[i := c[i][j := x]]
  }

  /** Writing an element keeps the triangular shape, and reading it back
      yields the written value while every other element stays. */
  lemma UpdateKeepsShape(c: seq<seq<int>>, i: nat, j: nat, x: int)
    requires IsTriangular(c) && i < |c| && j < |c[i]|
    ensures IsTriangular(Update(c, i, j, x))
    ensures At(Update(c, i, j, x), i, j) == Success(x)
    ensures forall k, l :: (k, l) != (i, j) ==> At(Update(c, i, j, x), k, l) == At(c, k, l)
  {
  }

  /** m1 + m2, row by row: throws on a size mismatch. */
  function Add(a: seq<seq<int>>, b: seq<seq<int>>): (r: Result<seq<seq<int>>>)
    requires IsTriangular(a) && IsTriangular(b)
    ensures r.Success? <==> |a| == |b|
    ensures r.Failure? ==> r.error == SizeMismatch
    ensures r.Success? ==> |r.value| == |a| && IsTriangular(r.value)
    ensures r.Success? ==> forall i :: 0 <= i < |a| ==> VectorArith.Add(a[i], b[i]) == Success(r.value[i])
  {
    if |a| != |b| then Failure(SizeMismatch)
    else Success(seq(|a|, i requires 0 <= i < |a| => VectorArith.AddElems(a[i], b[i])))
  }

  /** m1 - m2, row by row: throws on a size mismatch. */
  function Sub(a: seq<seq<int>>, b: seq<seq<int>>): (r: Result<seq<seq<int>>>)
    requires IsTriangular(a) && IsTriangular(b)
    ensures r.Success? <==> |a| == |b|
    ensures r.Failure? ==> r.error == SizeMismatch
    ensures r.Success? ==> |r.value| == |a| && IsTriangular(r.value)
    ensures r.Success? ==> forall i :: 0 <= i < |a| ==> VectorArith.Sub(a[i], b[i]) == Success(r.value[i])
  {
    if |a| != |b| then Failure(SizeMismatch)
    else Success(seq(|a|, i requires 0 <= i < |a| => VectorArith.SubElems(a[i], b[i])))
  }

  /** Every element of a sum (difference) is the sum (difference) of the corresponding elements. */
  lemma AddAt(a: seq<seq<int>>, b: seq<seq<int>>, i: nat, j: nat)
    requires IsTriangular(a) && IsTriangular(b) && |a| == |b|
    requires i < |a| && j < |a[i]|
    ensures At(Add(a, b).value, i, j) == Success(a[i][j] + b[i][j])
    ensures At(Sub(a, b).value, i, j) == Success(a[i][j] - b[i][j])
  {
    assert Add(a, b).value[i] == VectorArith.AddElems(a[i], b[i]);
    assert Sub(a, b).value[i] == VectorArith.SubElems(a[i], b[i]);
  }

  /** Matrix addition is commutative, and subtraction undoes it. */
  lemma AddCommutesAndSubUndoesIt(a: seq<seq<int>>, b: seq<seq<int>>)
    requires IsTriangular(a) && IsTriangular(b) && |a| == |b|
    ensures Add(a, b) == Add(b, a)
    ensures Sub(Add(a, b).value, b) == Success(a)
  {
    var s, t := Add(a, b).value, Add(b, a).value;
    var d := Sub(s, b).value;
    forall i | 0 <= i < |a|
      ensures s[i] == t[i] && d[i] == a[i]
    {
      assert s[i] == VectorArith.AddElems(a[i], b[i]);
      assert t[i] == VectorArith.AddElems(b[i], a[i]);
      assert d[i] == VectorArith.SubElems(s[i], b[i]);
      VectorArith.AddCommutesAndSubUndoesIt(a[i], b[i]);
    }
    assert s == t && d == a;
  }

  /** The arithmetic scenarios of the matrix tests, on side 4: element
      [1][1] set to 4 and 8 for the sum, to 5 and 6 for the difference;
      sides 4 and 6 for the mismatches. */
  lemma ArithmeticScenarios()
    ensures Add(Update(ZeroTriangle(4), 1, 1, 4), Update(ZeroTriangle(4), 1, 1, 8)).Success?
    ensures At(Add(Update(ZeroTriangle(4), 1, 1, 4), Update(ZeroTriangle(4), 1, 1, 8)).value, 1, 1) == Success(12)
    ensures Sub(Update(ZeroTriangle(4), 1, 1, 5), Update(ZeroTriangle(4), 1, 1, 6)).Success?
    ensures At(Sub(Update(ZeroTriangle(4), 1, 1, 5), Update(ZeroTriangle(4), 1, 1, 6)).value, 1, 1) == Success(-1)
    ensures Add(ZeroTriangle(4), ZeroTriangle(6)) == Failure(SizeMismatch)
    ensures Sub(ZeroTriangle(4), ZeroTriangle(6)) == Failure(SizeMismatch)
  {
    var z := ZeroTriangle(4);
    UpdateKeepsShape(z, 1, 1, 4);
    UpdateKeepsShape(z, 1, 1, 8);
    UpdateKeepsShape(z, 1, 1, 5);
    UpdateKeepsShape(z, 1, 1, 6);
    AddAt(Update(z, 1, 1, 4), Update(z, 1, 1, 8), 1, 1);
    AddAt(Update(z, 1, 1, 5), Update(z, 1, 1, 6), 1, 1);
  }
}
