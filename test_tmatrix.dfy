/** The TMatrix test suite, replayed against the model: one method per
    test case, whose postcondition is what the test expects.  A call that
    the test expects to throw is checked to return a failure. */
module TMatrixTests {
  import opened Errors
  import MatrixArith
  import opened Vectors
  import opened Matrices

  /** A zero matrix of side n, then `m[i][j] = x`, as the arithmetic
      tests prepare their operands. */
  method ZeroMatrixWith(n: nat, i: nat, j: nat, x: int) returns (m: TMatrix)
    requires n <= MAX_MATRIX_SIZE && i < n && j < n - i
    ensures fresh(m) && m.Valid() && m.size == n
    ensures forall k :: 0 <= k < n ==> fresh(m.rows[k]) && fresh(m.rows[k].data)
    ensures m.Contents() == MatrixArith.Update(MatrixArith.ZeroTriangle(n), i, j, x)
  {
    m := new TMatrix(n);
    var _ := m.Set(i, j, x);
  }

  method CanCreateMatrixWithPositiveLength() returns (ok: bool)
    ensures ok
  {
    var r := TMatrix.Create(5);
    ok := r.Success?;
  }

  method CantCreateTooLargeMatrix() returns (e: Result<TMatrix>)
    ensures e.Failure? && e.error == InvalidSize
  {
    e := TMatrix.Create(MAX_MATRIX_SIZE + 1);
  }

  method ThrowsWhenCreateMatrixWithNegativeLength() returns (e: Result<TMatrix>)
    ensures e.Failure? && e.error == InvalidSize
  {
    e := TMatrix.Create(-5);
  }

  /** A matrix built from the vector of rows another matrix converts to. */
  method CanCreateCopiedMatrix() returns (n: nat)
    ensures n == 5
  {
    var m := new TMatrix(5);
    var t := new TMatrix(5);
    var mV := t.AsRows();
    var m1 := new TMatrix.FromRows(mV);
    n := m1.GetSize();
  }

  method CopiedMatrixIsEqualToSourceOne() returns (eq: bool)
    ensures eq
  {
    var m := new TMatrix(4);
    var _ := m.Set(0, 0, 1);
    var mCopy := new TMatrix.Copy(m);
    eq := m.Equals(mCopy);
  }

  /** &m[0][0] != &m_copy[0][0]: the first rows do not share storage. */
  method CopiedMatrixHasItsOwnMemory() returns (distinct: bool)
    ensures distinct
  {
    var m := new TMatrix(4);
    var _ := m.Set(0, 0, 1);
    var mCopy := new TMatrix.Copy(m);
    var row := m.Row(0);
    var rowCopy := mCopy.Row(0);
    distinct := row.value.data != rowCopy.value.data;
  }

  method CanGetSize() returns (n: nat)
    ensures n == 4
  {
    var m := new TMatrix(4);
    n := m.GetSize();
  }

  method CanSetAndGetElement() returns (x: Result<int>)
    ensures x == Success(1)
  {
    var m := new TMatrix(2);
    var _ := m.Set(0, 0, 1);
    x := m.Get(0, 0);
  }

  method ThrowsWhenSetElementWithNegativeIndex() returns (e: Result<TVector>)
    ensures e.Failure? && e.error == OutOfRange
  {
    var m := new TMatrix(2);
    e := m.Row(-1);
  }

  method ThrowsWhenSetElementWithTooLargeIndex() returns (e: Result<TVector>)
    ensures e.Failure? && e.error == OutOfRange
  {
    var m := new TMatrix(2);
    e := m.Row(10000);
  }

  /** m is still the zero matrix it was built as. */
  method CanAssignMatrixToItself() returns (same: bool)
    ensures same
  {
    var m := new TMatrix(2);
    m.Assign(m);
    var zero := new TMatrix(2);
    same := m.Equals(zero);
  }

  /** The row fill `m1[i] = 1` of this test is not modelled. */
  method CanAssignMatricesOfEqualSize() returns (eq: bool)
    ensures eq
  {
    var m1 := new TMatrix(2);
    var m2 := new TMatrix(2);
    m2.Assign(m1);
    eq := m1.Equals(m2);
  }

  method AssignOperatorChangeMatrixSize() returns (n: nat)
    ensures n != 3
  {
    var m1 := new TMatrix(2);
    var m2 := new TMatrix(3);
    m2.Assign(m1);
    n := m2.GetSize();
  }

  /** The row fill `m1[i] = 11` of this test is not modelled. */
  method CanAssignMatricesOfDifferentSize() returns (eq: bool)
    ensures eq
  {
    var m1 := new TMatrix(2);
    var m2 := new TMatrix(5);
    m2.Assign(m1);
    eq := m1.Equals(m2);
  }

  method CompareEqualMatricesReturnTrue() returns (eq: bool)
    ensures eq
  {
    var m1 := new TMatrix(2);
    var m2 := new TMatrix(2);
    eq := m2.Equals(m1);
  }

  method CompareMatrixWithItselfReturnTrue() returns (eq: bool)
    ensures eq
  {
    var m1 := new TMatrix(2);
    eq := m1.Equals(m1);
  }

  method MatricesWithDifferentSizeAreNotEqual() returns (eq: bool)
    ensures !eq
  {
    var m1 := new TMatrix(3);
    var m2 := new TMatrix(4);
    eq := m1.Equals(m2);
  }

  /** Besides not throwing, the sum holds 4 + 8 at [1][1].  The sum is
      read directly, not through the copy `res(m1 + m2)`. */
  method CanAddMatricesWithEqualSize() returns (ok: bool, at11: Result<int>)
    ensures ok && at11 == Success(12)
  {
    var m1 := ZeroMatrixWith(4, 1, 1, 4);
    var m2 := ZeroMatrixWith(4, 1, 1, 8);
    var r := m1.Add(m2);
    ok := r.Success?;
    MatrixArith.ArithmeticScenarios();
    at11 := r.value.Get(1, 1);
  }

  method CantAddMatricesWithNotEqualSize() returns (e: Result<TMatrix>)
    ensures e.Failure? && e.error == SizeMismatch
  {
    var m1 := ZeroMatrixWith(4, 1, 1, 4);
    var m2 := ZeroMatrixWith(6, 1, 1, 8);
    e := m1.Add(m2);
  }

  /** Besides not throwing, the difference holds 5 - 6 at [1][1].  The
      difference is read directly, not through the copy `res(m1 - m2)`. */
  method CanSubtractMatricesWithEqualSize() returns (ok: bool, at11: Result<int>)
    ensures ok && at11 == Success(-1)
  {
    var m1 := ZeroMatrixWith(4, 1, 1, 5);
    var m2 := ZeroMatrixWith(4, 1, 1, 6);
    var r := m1.Sub(m2);
    ok := r.Success?;
    MatrixArith.ArithmeticScenarios();
    at11 := r.value.Get(1, 1);
  }

  method CantSubtractMatrixesWithNotEqualSize() returns (e: Result<TMatrix>)
    ensures e.Failure? && e.error == SizeMismatch
  {
    var m1 := ZeroMatrixWith(4, 1, 1, 4);
    var m2 := ZeroMatrixWith(6, 1, 1, 8);
    e := m1.Sub(m2);
  }
}
