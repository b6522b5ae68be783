/** TVector<int>: a bounds-checked vector that owns a block of `size`
    integers and carries a non-negative start index.  Element access uses
    the raw offset 0 <= p < size; the start index is stored and reported
    but takes part neither in indexing nor in equality. */
module Vectors {
  import opened Errors
  import VectorArith

  class TVector {
    var data: array<int>
    var size: nat
    var startIndex: nat

    /** The object invariant: the size respects the capacity limit and the
        owned block holds exactly `size` elements. */
    ghost predicate Valid()
      reads this
    {
      size <= MAX_VECTOR_SIZE && data.Length == size
    }

    /** The abstract value: the elements in offset order. */
    ghost function Elements(): seq<int>
      reads this, data
    {
      data[..]
    }

    /** Allocation part of TVector(size, startIndex), reached once the
        arguments have passed the construction check (see Create). */
    constructor (n: nat, start: nat)
      requires n <= MAX_VECTOR_SIZE
      ensures Valid() && fresh(data)
      ensures size == n && startIndex == start
      ensures Elements() == VectorArith.Zeros(n)
    {
      data := new int[n](_ => 0);
      size, startIndex := n, start;
    }

    /** TVector(size, startIndex): throws on an invalid size or start
        index, otherwise a zero-filled vector with its own storage. */
    static method Create(n: int, start: int) returns (r: Result<TVector>)
      ensures r.Failure? <==> VectorArith.CheckVectorArgs(n, start).Fail?
      ensures r.Failure? ==> r.error == InvalidSize
      ensures r.Success? ==> fresh(r.value) && fresh(r.value.data) && r.value.Valid()
      ensures r.Success? ==> r.value.GetSize() == n && r.value.GetStartIndex() == start
      ensures r.Success? ==> r.value.Elements() == VectorArith.Zeros(n)
    {
      if VectorArith.CheckVectorArgs(n, start).Fail? {
        return Failure(InvalidSize);
      }
      var v := new TVector(n, start);
      return Success(v);
    }

    /** Copy constructor: same size, start index and elements, in a block
        of storage of its own. */
    constructor Copy(other: TVector)
      requires other.Valid()
      ensures Valid() && fresh(data)
      ensures size == other.size && startIndex == other.startIndex
      ensures Elements() == other.Elements()
    {
      var a := new int[other.size];
      var i := 0;
      while i < other.size
        invariant 0 <= i <= other.size
        invariant a[..i] == other.data[..i]
      {
        a[i] := other.data[i];
        i := i + 1;
      }
      data, size, startIndex := a, other.size, other.startIndex;
    }

    /** GetSize(): the number of elements. */
    function GetSize(): (n: nat)
      reads this, data
      requires Valid()
      ensures n == |Elements()|
    {
      size
    }

    /** GetStartIndex(): the start index given at construction. */
    function GetStartIndex(): (s: nat)
      reads this
      ensures s == startIndex
    {
      startIndex
    }

    /** Reading v[pos]. */
    method Get(pos: int) returns (r: Result<int>)
      requires Valid()
      ensures r.Success? <==> 0 <= pos < GetSize()
      ensures r.Success? ==> r.value == Elements()[pos]
      ensures r.Failure? ==> r.error == OutOfRange
    {
      if pos < 0 || pos >= size {
        return Failure(OutOfRange);
      }
      return Success(data[pos]);
    }

    /** Writing v[pos] = x: only element pos changes; an out-of-range
        position throws before anything is written. */
    method Set(pos: int, x: int) returns (r: Outcome)
      requires Valid()
      modifies data
      ensures r.Pass? <==> 0 <= pos < size
      ensures r.Fail? ==> r.error == OutOfRange && Elements() == old(Elements())
      ensures r.Pass? ==> Elements() == old(Elements())[pos := x]
    {
      if pos < 0 || pos >= size {
        return Fail(OutOfRange);
      }
      data[pos] := x;
      return Pass;
    }

    /** v == other: same size and the same elements. */
    method Equals(other: TVector) returns (eq: bool)
      requires Valid() && other.Valid()
      ensures eq <==> Elements() == other.Elements()
      ensures GetSize() != other.GetSize() ==> !eq
    {
      if size != other.size {
        return false;
      }
      var i := 0;
      while i < size
        invariant 0 <= i <= size
        invariant data[..i] == other.data[..i]
      {
        if data[i] != other.data[i] {
          assert Elements()[i] != other.Elements()[i];
          return false;
        }
        i := i + 1;
      }
      assert data[..] == data[..size];
      return true;
    }

    /** v != other: the negation of ==. */
    method NotEquals(other: TVector) returns (ne: bool)
      requires Valid() && other.Valid()
      ensures ne <==> Elements() != other.Elements()
    {
      var eq := Equals(other);
      ne := !eq;
    }

    /** v = other: self-assignment changes nothing; otherwise this vector
        takes the source's size, start index and a deep copy of its
        elements, in fresh storage.  The source is left as it was. */
    method Assign(other: TVector)
      requires Valid() && other.Valid()
      modifies this
      ensures Valid()
      ensures size == old(other.size) && startIndex == old(other.startIndex)
      ensures Elements() == old(other.Elements())
      ensures other.Elements() == old(other.Elements())
      ensures this == other ==> data == old(data)
      ensures this != other ==> fresh(data)
    {
      if this == other {
        return;
      }
      var a := new int[other.size];
      var i := 0;
      while i < other.size
        invariant 0 <= i <= other.size
        invariant a[..i] == other.data[..i]
      {
        a[i] := other.data[i];
        i := i + 1;
      }
      data, size, startIndex := a, other.size, other.startIndex;
    }

    /** v + k, a new vector; v's frame stays untouched. */
    method AddScalar(k: int) returns (r: TVector)
      requires Valid()
      ensures fresh(r) && fresh(r.data) && r.Valid()
      ensures r.size == size && r.startIndex == startIndex
      ensures r.Elements() == VectorArith.AddScalar(Elements(), k)
    {
      r := new TVector(size, startIndex);
      var i := 0;
      while i < size
        invariant 0 <= i <= size
        invariant fresh(r) && fresh(r.data) && r.Valid()
        invariant r.size == size && r.startIndex == startIndex
        invariant forall j :: 0 <= j < i ==> r.data[j] == data[j] + k
      {
        r.data[i] := data[i] + k;
        i := i + 1;
      }
    }

    /** v - k, a new vector. */
    method SubScalar(k: int) returns (r: TVector)
      requires Valid()
      ensures fresh(r) && fresh(r.data) && r.Valid()
      ensures r.size == size && r.startIndex == startIndex
      ensures r.Elements() == VectorArith.SubScalar(Elements(), k)
    {
      r := new TVector(size, startIndex);
      var i := 0;
      while i < size
        invariant 0 <= i <= size
        invariant fresh(r) && fresh(r.data) && r.Valid()
        invariant r.size == size && r.startIndex == startIndex
        invariant forall j :: 0 <= j < i ==> r.data[j] == data[j] - k
      {
        r.data[i] := data[i] - k;
        i := i + 1;
      }
    }

    /** v * k, a new vector. */
    method MulScalar(k: int) returns (r: TVector)
      requires Valid()
      ensures fresh(r) && fresh(r.data) && r.Valid()
      ensures r.size == size && r.startIndex == startIndex
      ensures r.Elements() == VectorArith.MulScalar(Elements(), k)
    {
      r := new TVector(size, startIndex);
      var i := 0;
      while i < size
        invariant 0 <= i <= size
        invariant fresh(r) && fresh(r.data) && r.Valid()
        invariant r.size == size && r.startIndex == startIndex
        invariant forall j :: 0 <= j < i ==> r.data[j] == data[j] * k
      {
        r.data[i] := data[i] * k;
        i := i + 1;
      }
    }

    /** v + other: throws on a size mismatch before touching anything,
        otherwise a new vector with the element-wise sums. */
    method Add(other: TVector) returns (r: Result<TVector>)
      requires Valid() && other.Valid()
      ensures r.Failure? <==> GetSize() != other.GetSize()
      ensures r.Failure? ==> r.error == SizeMismatch
      ensures r.Success? ==> fresh(r.value) && fresh(r.value.data) && r.value.Valid()
      ensures r.Success? ==> r.value.startIndex == startIndex
      ensures r.Success? ==> VectorArith.Add(Elements(), other.Elements()) == Success(r.value.Elements())
    {
      if size != other.size {
        return Failure(SizeMismatch);
      }
      var v := new TVector(size, startIndex);
      var i := 0;
      while i < size
        invariant 0 <= i <= size
        invariant fresh(v) && fresh(v.data) && v.Valid()
        invariant v.size == size && v.startIndex == startIndex
        invariant forall j :: 0 <= j < i ==> v.data[j] == data[j] + other.data[j]
      {
        v.data[i] := data[i] + other.data[i];
        i := i + 1;
      }
      assert v.Elements() == VectorArith.AddElems(Elements(), other.Elements());
      return Success(v);
    }

    /** v - other: throws on a size mismatch, otherwise the element-wise
        differences. */
    method Sub(other: TVector) returns (r: Result<TVector>)
      requires Valid() && other.Valid()
      ensures r.Failure? <==> GetSize() != other.GetSize()
      ensures r.Failure? ==> r.error == SizeMismatch
      ensures r.Success? ==> fresh(r.value) && fresh(r.value.data) && r.value.Valid()
      ensures r.Success? ==> r.value.startIndex == startIndex
      ensures r.Success? ==> VectorArith.Sub(Elements(), other.Elements()) == Success(r.value.Elements())
    {
      if size != other.size {
        return Failure(SizeMismatch);
      }
      var v := new TVector(size, startIndex);
      var i := 0;
      while i < size
        invariant 0 <= i <= size
        invariant fresh(v) && fresh(v.data) && v.Valid()
        invariant v.size == size && v.startIndex == startIndex
        invariant forall j :: 0 <= j < i ==> v.data[j] == data[j] - other.data[j]
      {
        v.data[i] := data[i] - other.data[i];
        i := i + 1;
      }
      assert v.Elements() == VectorArith.SubElems(Elements(), other.Elements());
      return Success(v);
    }

    /** v * other, the dot product: throws on a size mismatch, otherwise
        the sum of the element-wise products. */
    method Dot(other: TVector) returns (r: Result<int>)
      requires Valid() && other.Valid()
      ensures r == VectorArith.DotProduct(Elements(), other.Elements())
    {
      if size != other.size {
        return Failure(SizeMismatch);
      }
      var sum := 0;
      var i := 0;
      while i < size
        invariant 0 <= i <= size
        invariant sum == VectorArith.Dot(data[..i], other.data[..i])
      {
        assert data[..i + 1][..i] == data[..i];
        assert other.data[..i + 1][..i] == other.data[..i];
        sum := sum + data[i] * other.data[i];
        i := i + 1;
      }
      assert data[..size] == data[..] && other.data[..size] == other.data[..];
      return Success(sum);
    }
  }
}
