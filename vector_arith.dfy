/** The value-level meaning of a TVector<int>: its elements as a sequence,
    the construction rule, and the arithmetic operators as functions on
    element sequences, with the algebraic facts that relate them. */
module VectorArith {
  import opened Errors

  /** Construction rule of TVector(size, startIndex): a size outside
      0..MAX_VECTOR_SIZE or a negative start index is rejected. */
  function CheckVectorArgs(size: int, startIndex: int): (r: Outcome)
    ensures r.Pass? <==> 0 <= size <= MAX_VECTOR_SIZE && 0 <= startIndex
    ensures r.Fail? ==> r.error == InvalidSize
  {
    if size < 0 || size > MAX_VECTOR_SIZE || startIndex < 0 then Fail(InvalidSize) else Pass
  }

  /** The cases the vector construction tests exercise. */
  lemma ConstructionCases()
    ensures CheckVectorArgs(5, 0).Pass?
    ensures CheckVectorArgs(4, 2).Pass?
    ensures CheckVectorArgs(MAX_VECTOR_SIZE + 1, 0) == Fail(InvalidSize)
    ensures CheckVectorArgs(-5, 0) == Fail(InvalidSize)
    ensures CheckVectorArgs(5, -2) == Fail(InvalidSize)
  {
  }

  /** The elements of a freshly built vector: all zero. */
  function Zeros(n: nat): (r: seq<int>)
  {
    seq(n, _ => 0)
  }

  /** n copies of x, as the tests' fill loops produce. */
  function Filled(n: nat, x: int): (r: seq<int>)
  {
    seq(n, _ => x)
  }

  /** Bounds check of operator[]: the raw offset must lie in 0 <= p < |s|. */
  function At(s: seq<int>, p: int): (r: Result<int>)
    ensures r.Success? <==> 0 <= p < |s|
    ensures r.Success? ==> r.value == s[p]
    ensures r.Failure? ==> r.error == OutOfRange
  {
    if 0 <= p < |s| then Success(s[p]) else Failure(OutOfRange)
  }

  /** v + k: every element moved up by k. */
  function AddScalar(s: seq<int>, k: int): (r: seq<int>)
    ensures |r| == |s| && forall i :: 0 <= i < |s| ==> r[i] - s[i] == k
  {
    seq(|s|, i requires 0 <= i < |s| => s[i] + k)
  }

  /** v - k: every element moved down by k. */
  function SubScalar(s: seq<int>, k: int): (r: seq<int>)
    ensures |r| == |s| && forall i :: 0 <= i < |s| ==> s[i] - r[i] == k
  {
    seq(|s|, i requires 0 <= i < |s| => s[i] - k)
  }

  /** v * k: every element scaled by k. */
  function MulScalar(s: seq<int>, k: int): (r: seq<int>)
    ensures |r| == |s| && forall i :: 0 <= i < |s| ==> r[i] == k * s[i]
  {
    seq(|s|, i requires 0 <= i < |s| => s[i] * k)
  }

  /** Element-wise sum of two vectors of one size. */
  function AddElems(a: seq<int>, b: seq<int>): (r: seq<int>)
    requires |a| == |b|
  {
    seq(|a|, i requires 0 <= i < |a| => a[i] + b[i])
  }

  /** Element-wise difference of two vectors of one size. */
  function SubElems(a: seq<int>, b: seq<int>): (r: seq<int>)
    requires |a| == |b|
  {
    seq(|a|, i requires 0 <= i < |a| => a[i] - b[i])
  }

  /** Sum of the element-wise products, accumulated from the front. */
  function Dot(a: seq<int>, b: seq<int>): (r: int)
    requires |a| == |b|
    ensures |a| == 0 ==> r == 0
    ensures (forall i :: 0 <= i < |a| ==> a[i] == 0) ==> r == 0
    ensures (forall i :: 0 <= i < |a| ==> 0 <= a[i] && 0 <= b[i]) ==> 0 <= r
    decreases |a|
  {
    if |a| == 0 then 0 else Dot(a[..|a| - 1], b[..|b| - 1]) + a[|a| - 1] * b[|b| - 1]
  }

  /** v1 + v2: throws on a size mismatch. */
  function Add(a: seq<int>, b: seq<int>): (r: Result<seq<int>>)
    ensures r.Success? <==> |a| == |b|
    ensures r.Failure? ==> r.error == SizeMismatch
    ensures r.Success? ==> |r.value| == |a| && forall i :: 0 <= i < |a| ==> r.value[i] == a[i] + b[i]
  {
    if |a| != |b| then Failure(SizeMismatch) else Success(AddElems(a, b))
  }

  /** v1 - v2: throws on a size mismatch. */
  function Sub(a: seq<int>, b: seq<int>): (r: Result<seq<int>>)
    ensures r.Success? <==> |a| == |b|
    ensures r.Failure? ==> r.error == SizeMismatch
    ensures r.Success? ==> |r.value| == |a| && forall i :: 0 <= i < |a| ==> r.value[i] == a[i] - b[i]
  {
    if |a| != |b| then Failure(SizeMismatch) else Success(SubElems(a, b))
  }

  /** v1 * v2, the dot product: throws on a size mismatch. */
  function DotProduct(a: seq<int>, b: seq<int>): (r: Result<int>)
    ensures r.Success? <==> |a| == |b|
    ensures r.Failure? ==> r.error == SizeMismatch
  {
    if |a| != |b| then Failure(SizeMismatch) else Success(Dot(a, b))
  }

  // ---------------------------------------------------------------------
  // Facts about the operators
  // ---------------------------------------------------------------------

  /** Subtracting the scalar undoes adding it. */
  lemma SubScalarUndoesAddScalar(s: seq<int>, k: int)
    ensures SubScalar(AddScalar(s, k), k) == s
  {
    assert forall i :: 0 <= i < |s| ==> SubScalar(AddScalar(s, k), k)[i] == s[i];
  }

  /** Multiplying by one leaves a vector unchanged; by zero gives zeros. */
  lemma MulScalarUnitAndZero(s: seq<int>)
    ensures MulScalar(s, 1) == s
    ensures MulScalar(s, 0) == Zeros(|s|)
  {
    assert forall i :: 0 <= i < |s| ==> MulScalar(s, 1)[i] == s[i];
    assert forall i :: 0 <= i < |s| ==> MulScalar(s, 0)[i] == Zeros(|s|)[i];
  }

  /** Vector addition is commutative, and subtraction undoes it. */
  lemma AddCommutesAndSubUndoesIt(a: seq<int>, b: seq<int>)
    requires |a| == |b|
    ensures AddElems(a, b) == AddElems(b, a)
    ensures SubElems(AddElems(a, b), b) == a
  {
    assert forall i :: 0 <= i < |a| ==> AddElems(a, b)[i] == AddElems(b, a)[i];
    assert forall i :: 0 <= i < |a| ==> SubElems(AddElems(a, b), b)[i] == a[i];
  }

  /** Dropping the last element of both operands of an element-wise sum. */
  lemma AddElemsPrefix(a: seq<int>, b: seq<int>)
    requires |a| == |b| && |a| > 0
    ensures AddElems(a, b)[..|a| - 1] == AddElems(a[..|a| - 1], b[..|b| - 1])
  {
  }

  /** The dot product is symmetric. */
  lemma {:induction false} DotSymmetric(a: seq<int>, b: seq<int>)
    requires |a| == |b|
    ensures Dot(a, b) == Dot(b, a)
  {
    if |a| > 0 {
      DotSymmetric(a[..|a| - 1], b[..|b| - 1]);
    }
  }

  /** The dot product distributes over element-wise addition. */
  lemma {:induction false} DotAddDistributes(a: seq<int>, b: seq<int>, c: seq<int>)
    requires |a| == |b| == |c|
    ensures Dot(AddElems(a, b), c) == Dot(a, c) + Dot(b, c)
  {
    if |a| > 0 {
      var n := |a| - 1;
      var ab := AddElems(a, b);
      assert Dot(ab, c) == Dot(ab[..n], c[..n]) + ab[n] * c[n];
      AddElemsPrefix(a, b);
      DotAddDistributes(a[..n], b[..n], c[..n]);
      assert ab[n] == a[n] + b[n];
      SplitProduct(a[n], b[n], c[n]);
    }
  }

  /** Scaling one operand scales the dot product. */
  lemma {:induction false} DotMulScalar(a: seq<int>, b: seq<int>, k: int)
    requires |a| == |b|
    ensures Dot(MulScalar(a, k), b) == k * Dot(a, b)
  {
    if |a| > 0 {
      var n := |a| - 1;
      var ka := MulScalar(a, k);
      assert ka[..n] == MulScalar(a[..n], k);
      DotMulScalar(a[..n], b[..n], k);
      var p := Dot(a[..n], b[..n]);
      assert Dot(ka, b) == k * p + ka[n] * b[n];
      ScaleProduct(k, p, a[n], b[n]);
    }
  }

  /** One step of DotAddDistributes: (x + y) * z == x * z + y * z. */
  lemma SplitProduct(x: int, y: int, z: int)
    ensures (x + y) * z == x * z + y * z
  {
  }

  /** One step of DotMulScalar: k * p + (k * x) * y == k * (p + x * y). */
  lemma ScaleProduct(k: int, p: int, x: int, y: int)
    ensures k * p + (k * x) * y == k * (p + x * y)
  {
  }

  /** The dot product with a zero vector is zero. */
  lemma {:induction false} DotZeros(b: seq<int>)
    ensures Dot(Zeros(|b|), b) == 0
  {
    if |b| > 0 {
      var n := |b| - 1;
      assert Zeros(|b|)[..n] == Zeros(|b[..n]|);
      DotZeros(b[..n]);
    }
  }

  /** The dot product of two all-ones vectors counts their elements. */
  lemma {:induction false} DotOnes(n: nat)
    ensures Dot(Filled(n, 1), Filled(n, 1)) == n
  {
    if n > 0 {
      assert Filled(n, 1)[..n - 1] == Filled(n - 1, 1);
      DotOnes(n - 1);
    }
  }

  /** The arithmetic scenarios of the vector tests, on size 2. */
  lemma ArithmeticScenarios()
    ensures AddScalar(Zeros(2), 2) == Filled(2, 2)
    ensures SubScalar(Zeros(2), 2) == Filled(2, -2)
    ensures MulScalar(Filled(2, 1), 2) == Filled(2, 2)
    ensures Add(Zeros(2), Filled(2, 1)) == Success(Filled(2, 1))
    ensures Sub(Zeros(2), Filled(2, 1)) == Success(Filled(2, -1))
    ensures DotProduct(Filled(2, 1), Filled(2, 1)) == Success(2)
    ensures DotProduct(Zeros(2), Filled(2, 1)) == Success(0)
    ensures Add(Zeros(2), Zeros(3)) == Failure(SizeMismatch)
    ensures Sub(Zeros(2), Zeros(3)) == Failure(SizeMismatch)
    ensures DotProduct(Zeros(2), Zeros(3)) == Failure(SizeMismatch)
  {
    assert AddScalar(Zeros(2), 2) == [2, 2] == Filled(2, 2);
    assert SubScalar(Zeros(2), 2) == [-2, -2] == Filled(2, -2);
    assert MulScalar(Filled(2, 1), 2) == [2, 2] == Filled(2, 2);
    assert AddElems(Zeros(2), Filled(2, 1)) == [1, 1] == Filled(2, 1);
    assert SubElems(Zeros(2), Filled(2, 1)) == [-1, -1] == Filled(2, -1);
    DotOnes(2);
    DotZeros(Filled(2, 1));
  }
}
