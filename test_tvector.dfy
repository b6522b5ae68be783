/** The TVector test suite, replayed against the model: one method per
    test case, whose postcondition is what the test expects.  A call that
    the test expects to throw is checked to return a failure. */
module TVectorTests {
  import opened Errors
  import VectorArith
  import opened Vectors

  /** The fill loop `for (i = 0; i < size; i++) v[i] = x;` of the tests. */
  method FillWith(v: TVector, x: int)
    requires v.Valid()
    modifies v.data
    ensures v.Elements() == VectorArith.Filled(v.size, x)
  {
    var i := 0;
    while i < v.size
      invariant 0 <= i <= v.size
      invariant forall j :: 0 <= j < i ==> v.Elements()[j] == x
    {
      var _ := v.Set(i, x);
      i := i + 1;
    }
    assert v.Elements() == VectorArith.Filled(v.size, x);
  }

  method CanCreateVectorWithPositiveLength() returns (ok: bool)
    ensures ok
  {
    var r := TVector.Create(5, 0);
    ok := r.Success?;
  }

  method CantCreateTooLargeVector() returns (e: Result<TVector>)
    ensures e.Failure? && e.error == InvalidSize
  {
    e := TVector.Create(MAX_VECTOR_SIZE + 1, 0);
  }

  method ThrowsWhenCreateVectorWithNegativeLength() returns (e: Result<TVector>)
    ensures e.Failure? && e.error == InvalidSize
  {
    e := TVector.Create(-5, 0);
  }

  method ThrowsWhenCreateVectorWithNegativeStartindex() returns (e: Result<TVector>)
    ensures e.Failure? && e.error == InvalidSize
  {
    e := TVector.Create(5, -2);
  }

  method CanCreateCopiedVector() returns (n: nat)
    ensures n == 10
  {
    var v := new TVector(10, 0);
    var v1 := new TVector.Copy(v);
    n := v1.GetSize();
  }

  method CopiedVectorIsEqualToSourceOne() returns (eq: bool)
    ensures eq
  {
    var v := new TVector(5, 0);
    var _ := v.Set(0, 1);
    var vCopy := new TVector.Copy(v);
    eq := v.Equals(vCopy);
  }

  method CopiedVectorHasItsOwnMemory() returns (distinct: bool)
    ensures distinct
  {
    var v := new TVector(5, 0);
    var _ := v.Set(0, 1);
    var vCopy := new TVector.Copy(v);
    distinct := v.data != vCopy.data;
  }

  method CanGetSize() returns (n: nat)
    ensures n == 4
  {
    var v := new TVector(4, 0);
    n := v.GetSize();
  }

  method CanGetStartIndex() returns (s: nat)
    ensures s == 2
  {
    var r := TVector.Create(4, 2);
    s := r.value.GetStartIndex();
  }

  method CanSetAndGetElement() returns (x: Result<int>)
    ensures x == Success(4)
  {
    var v := new TVector(4, 0);
    var _ := v.Set(0, 4);
    x := v.Get(0);
  }

  method ThrowsWhenSetElementWithNegativeIndex() returns (e: Result<int>)
    ensures e.Failure? && e.error == OutOfRange
  {
    var v := new TVector(4, 0);
    e := v.Get(-1);
  }

  method ThrowsWhenSetElementWithTooLargeIndex() returns (e: Result<int>)
    ensures e.Failure? && e.error == OutOfRange
  {
    var v := new TVector(4, 0);
    e := v.Get(100);
  }

  method CanAssignVectorToItself() returns (same: bool)
    ensures same
  {
    var v := new TVector(4, 0);
    var before := new TVector.Copy(v);
    v.Assign(v);
    same := v.Equals(before);
  }

  method CanAssignVectorsOfEqualSize() returns (eq: bool)
    ensures eq
  {
    var v1 := new TVector(2, 0);
    var v2 := new TVector(2, 0);
    FillWith(v1, 1);
    v2.Assign(v1);
    eq := v1.Equals(v2);
  }

  method AssignOperatorChangeVectorSize() returns (n: nat)
    ensures n != 5
  {
    var v1 := new TVector(2, 0);
    var v2 := new TVector(5, 0);
    v2.Assign(v1);
    n := v2.GetSize();
  }

  method CanAssignVectorsOfDifferentSize() returns (eq: bool)
    ensures eq
  {
    var v1 := new TVector(2, 0);
    var v2 := new TVector(5, 0);
    var i := 0;
    while i < 2
      invariant 0 <= i <= 2
      invariant fresh(v1.data) && v1.Valid() && v1.size == 2 && v2.Valid()
    {
      var _ := v1.Set(i, i);
      i := i + 1;
    }
    v2.Assign(v1);
    eq := v2.Equals(v1);
  }

  method CompareEqualVectorsReturnTrue() returns (eq: bool)
    ensures eq
  {
    var v1 := new TVector(2, 0);
    var v2 := new TVector.Copy(v1);
    eq := v1.Equals(v2);
  }

  method CompareVectorWithItselfReturnTrue() returns (eq: bool)
    ensures eq
  {
    var v1 := new TVector(2, 0);
    eq := v1.Equals(v1);
  }

  method VectorsWithDifferentSizeAreNotEqual() returns (eq: bool)
    ensures !eq
  {
    var v1 := new TVector(2, 0);
    var v2 := new TVector(1, 0);
    eq := v1.Equals(v2);
  }

  method CanAddScalarToVector() returns (s0: Result<int>, s1: Result<int>, src0: Result<int>)
    ensures s0 == Success(2) && s1 == Success(2) && src0 == Success(0)
  {
    var v1 := new TVector(2, 0);
    FillWith(v1, 0);
    var v2 := new TVector(2, 0);
    FillWith(v2, 0);
    var t := v1.AddScalar(2);
    v2.Assign(t);
    s0 := v2.Get(0);
    s1 := v2.Get(1);
    src0 := v1.Get(0);
  }

  method CanSubtractScalarFromVector() returns (s0: Result<int>, s1: Result<int>, src0: Result<int>)
    ensures s0 == Success(-2) && s1 == Success(-2) && src0 == Success(0)
  {
    var v1 := new TVector(2, 0);
    FillWith(v1, 0);
    var v2 := new TVector(2, 0);
    FillWith(v2, 0);
    var t := v1.SubScalar(2);
    v2.Assign(t);
    s0 := v2.Get(0);
    s1 := v2.Get(1);
    src0 := v1.Get(0);
  }

  method CanMultiplyScalarByVector() returns (s0: Result<int>, s1: Result<int>, src0: Result<int>)
    ensures s0 == Success(2) && s1 == Success(2) && src0 == Success(1)
  {
    var v1 := new TVector(2, 0);
    FillWith(v1, 1);
    var v2 := new TVector(2, 0);
    FillWith(v2, 1);
    var t := v1.MulScalar(2);
    v2.Assign(t);
    s0 := v2.Get(0);
    s1 := v2.Get(1);
    src0 := v1.Get(0);
  }

  method CanAddVectorsWithEqualSize() returns (s0: Result<int>, s1: Result<int>)
    ensures s0 == Success(0 + 1) && s1 == Success(0 + 1)
  {
    var v1 := new TVector(2, 0);
    FillWith(v1, 0);
    var v2 := new TVector(2, 0);
    FillWith(v2, 1);
    var r := v1.Add(v2);
    var summ := new TVector.Copy(r.value);
    s0 := summ.Get(0);
    s1 := summ.Get(1);
  }

  method CantAddVectorsWithNotEqualSize() returns (ne: bool, e: Result<TVector>)
    ensures ne && e.Failure? && e.error == SizeMismatch
  {
    var v1 := new TVector(2, 0);
    var v2 := new TVector(3, 0);
    ne := v1.NotEquals(v2);
    e := v1.Add(v2);
  }

  method CanSubtractVectorsWithEqualSize() returns (s0: Result<int>, s1: Result<int>)
    ensures s0 == Success(0 - 1) && s1 == Success(0 - 1)
  {
    var v1 := new TVector(2, 0);
    FillWith(v1, 0);
    var v2 := new TVector(2, 0);
    FillWith(v2, 1);
    var r := v1.Sub(v2);
    var sub := new TVector.Copy(r.value);
    s0 := sub.Get(0);
    s1 := sub.Get(1);
  }

  method CantSubtractVectorsWithNotEqualSize() returns (ne: bool, e: Result<TVector>)
    ensures ne && e.Failure? && e.error == SizeMismatch
  {
    var v1 := new TVector(2, 0);
    var v2 := new TVector(3, 0);
    ne := v1.NotEquals(v2);
    e := v1.Sub(v2);
  }

  method CanMultiplyVectorsWithEqualSize() returns (multres: Result<int>)
    ensures multres == Success(2)
  {
    var v1 := new TVector(2, 0);
    FillWith(v1, 1);
    var v2 := new TVector(2, 0);
    FillWith(v2, 1);
    multres := v1.Dot(v2);
    VectorArith.DotOnes(2);
  }

  method CantMultiplyVectorsWithNotEqualSize() returns (ne: bool, e: Result<int>)
    ensures ne && e.Failure? && e.error == SizeMismatch
  {
    var v1 := new TVector(2, 0);
    var v2 := new TVector(3, 0);
    ne := v1.NotEquals(v2);
    e := v1.Dot(v2);
  }
}
