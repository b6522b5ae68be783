/** TMatrix<int>: a square upper-triangular matrix of side N kept as a
    vector of N row vectors, row i a TVector<int> of N - i elements that
    the matrix owns exclusively.  Row access m[i] is bounds-checked; the
    element m[i][j] is then bounds-checked by the row. */
module Matrices {
  import opened Errors
  import VectorArith
  import MatrixArith
  import opened Vectors

  /** A vector of rows with the triangular shape: row k is a valid vector
      of |rs| - k elements, and no two rows share storage. */
  ghost predicate ShapedRows(rs: seq<TVector>)
    reads rs
  {
    && |rs| <= MAX_MATRIX_SIZE
    && (forall k :: 0 <= k < |rs| ==> rs[k].Valid() && rs[k].size == |rs| - k)
    && (forall k, l :: 0 <= k < l < |rs| ==> rs[k].data != rs[l].data)
  }

  /** The storage blocks of the rows. */
  ghost function ArraysOf(rs: seq<TVector>): set<array<int>>
    reads rs
  {
    set k | 0 <= k < |rs| :: rs[k].data
  }

  /** Row r is a valid vector of len elements holding c. */
  ghost predicate RowIs(r: TVector, len: nat, c: seq<int>)
    reads r, r.data
  {
    r.Valid() && r.size == len && r.Elements() == c
  }

  /** The elements of the rows, row by row. */
  ghost function ContentsOf(rs: seq<TVector>): (c: seq<seq<int>>)
    reads rs, ArraysOf(rs)
    ensures |c| == |rs|
    ensures forall k :: 0 <= k < |rs| ==> c[k] == rs[k].Elements()
    ensures ShapedRows(rs) ==> MatrixArith.IsTriangular(c)
  {
    seq(|rs|, k requires 0 <= k < |rs| reads rs, ArraysOf(rs) => rs[k].data[..])
  }

  /** The copy constructor of TVector<TVector<int>>: every row is copied
      into storage of its own, keeping its size, start index and elements. */
  method CopyRows(rs: seq<TVector>) returns (cs: seq<TVector>)
    requires ShapedRows(rs)
    ensures ShapedRows(cs) && ContentsOf(cs) == ContentsOf(rs)
    ensures forall k :: 0 <= k < |cs| ==> fresh(cs[k]) && fresh(cs[k].data)
    ensures forall k :: 0 <= k < |cs| ==> cs[k].startIndex == rs[k].startIndex
  {
    cs := [];
    var k := 0;
    while k < |rs|
      invariant 0 <= k <= |rs| && |cs| == k
      invariant forall l :: 0 <= l < k ==> fresh(cs[l]) && fresh(cs[l].data)
      invariant forall l :: 0 <= l < k ==> RowIs(cs[l], rs[l].size, rs[l].Elements())
      invariant forall l :: 0 <= l < k ==> cs[l].startIndex == rs[l].startIndex
      invariant forall l, m :: 0 <= l < m < k ==> cs[l].data != cs[m].data
    {
      var row := new TVector.Copy(rs[k]);
      cs := cs + [row];
      k := k + 1;
    }
  }

  /** The rows TMatrix(n) builds: row k holds n - k zeros and, as it
      covers the columns k..n-1, has start index k. */
  method ZeroRows(n: nat) returns (rs: seq<TVector>)
    requires n <= MAX_MATRIX_SIZE
    ensures |rs| == n && ShapedRows(rs)
    ensures ContentsOf(rs) == MatrixArith.ZeroTriangle(n)
    ensures forall k :: 0 <= k < n ==> fresh(rs[k]) && fresh(rs[k].data)
    ensures forall k :: 0 <= k < n ==> rs[k].startIndex == k
  {
    rs := [];
    var k := 0;
    while k < n
      invariant 0 <= k <= n && |rs| == k
      invariant forall l :: 0 <= l < k ==> fresh(rs[l]) && fresh(rs[l].data)
      invariant forall l :: 0 <= l < k ==> RowIs(rs[l], n - l, VectorArith.Zeros(n - l))
      invariant forall l :: 0 <= l < k ==> rs[l].startIndex == l
      invariant forall l, m :: 0 <= l < m < k ==> rs[l].data != rs[m].data
    {
      var row := new TVector(n - k, k);
      rs := rs + [row];
      k := k + 1;
    }
    assert ContentsOf(rs) == MatrixArith.ZeroTriangle(n);
  }

  /** operator+ of TVector<TVector<int>> on two vectors of rows of one
      size: row k of the result is the vector sum of the rows k. */
  method AddRows(a: seq<TVector>, b: seq<TVector>) returns (rs: seq<TVector>)
    requires ShapedRows(a) && ShapedRows(b) && |a| == |b|
    ensures ShapedRows(rs)
    ensures MatrixArith.Add(ContentsOf(a), ContentsOf(b)) == Success(ContentsOf(rs))
    ensures forall k :: 0 <= k < |rs| ==> fresh(rs[k]) && fresh(rs[k].data)
  {
    ghost var ca, cb := ContentsOf(a), ContentsOf(b);
    ghost var expected := MatrixArith.Add(ca, cb).value;
    rs := [];
    var k := 0;
    while k < |a|
      invariant 0 <= k <= |a| && |rs| == k
      invariant forall l :: 0 <= l < k ==> fresh(rs[l]) && fresh(rs[l].data)
      invariant forall l :: 0 <= l < k ==> RowIs(rs[l], |a| - l, expected[l])
      invariant forall l, m :: 0 <= l < m < k ==> rs[l].data != rs[m].data
    {
      assert ca[k] == a[k].Elements() && cb[k] == b[k].Elements();
      var sum := a[k].Add(b[k]);
      rs := rs + [sum.value];
      k := k + 1;
    }
    assert ContentsOf(rs) == expected;
    assert ContentsOf(a) == ca && ContentsOf(b) == cb;
  }

  /** operator- of TVector<TVector<int>> on two vectors of rows of one
      size: row k of the result is the vector difference of the rows k. */
  method SubRows(a: seq<TVector>, b: seq<TVector>) returns (rs: seq<TVector>)
    requires ShapedRows(a) && ShapedRows(b) && |a| == |b|
    ensures ShapedRows(rs)
    ensures MatrixArith.Sub(ContentsOf(a), ContentsOf(b)) == Success(ContentsOf(rs))
    ensures forall k :: 0 <= k < |rs| ==> fresh(rs[k]) && fresh(rs[k].data)
  {
    ghost var ca, cb := ContentsOf(a), ContentsOf(b);
    ghost var expected := MatrixArith.Sub(ca, cb).value;
    rs := [];
    var k := 0;
    while k < |a|
      invariant 0 <= k <= |a| && |rs| == k
      invariant forall l :: 0 <= l < k ==> fresh(rs[l]) && fresh(rs[l].data)
      invariant forall l :: 0 <= l < k ==> RowIs(rs[l], |a| - l, expected[l])
      invariant forall l, m :: 0 <= l < m < k ==> rs[l].data != rs[m].data
    {
      assert ca[k] == a[k].Elements() && cb[k] == b[k].Elements();
      var diff := a[k].Sub(b[k]);
      rs := rs + [diff.value];
      k := k + 1;
    }
    assert ContentsOf(rs) == expected;
    assert ContentsOf(a) == ca && ContentsOf(b) == cb;
  }

  class TMatrix {
    var rows: seq<TVector>
    var size: nat

    /** The object invariant: side length N = size within the capacity
        limit, and the rows have the triangular shape. */
    ghost predicate Valid()
      reads this, rows
    {
      |rows| == size && ShapedRows(rows)
    }

    /** The abstract value: the elements of the rows. */
    ghost function Contents(): seq<seq<int>>
      reads this, rows, ArraysOf(rows)
    {
      ContentsOf(rows)
    }

    /** Allocation part of TMatrix(size), reached once the size has passed
        the construction check (see Create): row i gets N - i zeros and, as
        it covers the columns i..N-1, start index i. */
    constructor (n: nat)
      requires n <= MAX_MATRIX_SIZE
      ensures Valid() && size == n
      ensures Contents() == MatrixArith.ZeroTriangle(n)
      ensures forall k :: 0 <= k < n ==> fresh(rows[k]) && fresh(rows[k].data)
      ensures forall k :: 0 <= k < n ==> rows[k].startIndex == k
    {
      var rs := ZeroRows(n);
      rows, size := rs, n;
    }

    /** TMatrix(size): throws on a negative or too large size, otherwise
        a zero matrix of that side. */
    static method Create(n: int) returns (r: Result<TMatrix>)
      ensures r.Failure? <==> MatrixArith.CheckMatrixArgs(n).Fail?
      ensures r.Failure? ==> r.error == InvalidSize
      ensures r.Success? ==> fresh(r.value) && r.value.Valid() && r.value.size == n
      ensures r.Success? ==> r.value.Contents() == MatrixArith.ZeroTriangle(n)
      ensures r.Success? ==> forall k :: 0 <= k < n ==> fresh(r.value.rows[k]) && fresh(r.value.rows[k].data)
    {
      if MatrixArith.CheckMatrixArgs(n).Fail? {
        return Failure(InvalidSize);
      }
      var m := new TMatrix(n);
      return Success(m);
    }

    /** Copy constructor: the same size and elements, every row in storage
        of its own. */
    constructor Copy(other: TMatrix)
      requires other.Valid()
      ensures Valid() && size == other.size
      ensures Contents() == other.Contents()
      ensures forall k :: 0 <= k < size ==> fresh(rows[k]) && fresh(rows[k].data)
    {
      var rs := CopyRows(other.rows);
      rows, size := rs, other.size;
    }

    /** TMatrix(const TVector<TVector<int>>&): a matrix from a vector of
        rows of triangular shape, such as the one a matrix converts to. */
    constructor FromRows(mv: seq<TVector>)
      requires ShapedRows(mv)
      ensures Valid() && size == |mv|
      ensures Contents() == ContentsOf(mv)
      ensures forall k :: 0 <= k < size ==> fresh(rows[k]) && fresh(rows[k].data)
    {
      var rs := CopyRows(mv);
      rows, size := rs, |mv|;
    }

    /** Conversion of the matrix to its base TVector<TVector<int>>: a deep
        copy of the rows. */
    method AsRows() returns (mv: seq<TVector>)
      requires Valid()
      ensures ShapedRows(mv) && |mv| == size && ContentsOf(mv) == Contents()
      ensures forall k :: 0 <= k < |mv| ==> fresh(mv[k]) && fresh(mv[k].data)
    {
      mv := CopyRows(rows);
    }

    /** GetSize(): the side length. */
    function GetSize(): (n: nat)
      reads this, rows, ArraysOf(rows)
      requires Valid()
      ensures n == |Contents()| && MatrixArith.IsTriangular(Contents())
    {
      size
    }

    /** m[i]: the row itself (a reference, not a copy); an index outside
        0 <= i < size throws. */
    method Row(i: int) returns (r: Result<TVector>)
      requires Valid()
      ensures r.Success? <==> 0 <= i < size
      ensures r.Success? ==> r.value == rows[i] && r.value.Elements() == Contents()[i]
      ensures r.Failure? ==> r.error == OutOfRange
    {
      if i < 0 || i >= size {
        return Failure(OutOfRange);
      }
      return Success(rows[i]);
    }

    /** Reading m[i][j]. */
    method Get(i: int, j: int) returns (r: Result<int>)
      requires Valid()
      ensures r == MatrixArith.At(Contents(), i, j)
    {
      var row := Row(i);
      if row.Failure? {
        return Failure(row.error);
      }
      r := row.value.Get(j);
    }

    /** Writing m[i][j] = x: only that element changes, and an index out
        of range in either step throws before anything is written. */
    method Set(i: int, j: int, x: int) returns (r: Outcome)
      requires Valid()
      modifies ArraysOf(rows)
      ensures Valid()
      ensures r.Pass? <==> MatrixArith.At(old(Contents()), i, j).Success?
      ensures r.Fail? ==> r.error == OutOfRange && Contents() == old(Contents())
      ensures r.Pass? ==> Contents() == MatrixArith.Update(old(Contents()), i, j, x)
    {
      var row := Row(i);
      if row.Failure? {
        return Fail(row.error);
      }
      var v := row.value;
      assert v.data in ArraysOf(rows);
      ghost var before := Contents();
      r := v.Set(j, x);
      forall k | 0 <= k < |rows| && k != i
        ensures rows[k].Elements() == before[k]
      {
        assert rows[k].data != v.data;
      }
    }

    /** m == other: the same size and equal rows. */
    method Equals(other: TMatrix) returns (eq: bool)
      requires Valid() && other.Valid()
      ensures eq <==> Contents() == other.Contents()
      ensures GetSize() != other.GetSize() ==> !eq
    {
      if size != other.size {
        return false;
      }
      ghost var mine, theirs := Contents(), other.Contents();
      var k := 0;
      while k < size
        invariant 0 <= k <= size
        invariant forall l :: 0 <= l < k ==> mine[l] == theirs[l]
      {
        var same := rows[k].Equals(other.rows[k]);
        assert mine[k] == rows[k].Elements() && theirs[k] == other.rows[k].Elements();
        if !same {
          return false;
        }
        k := k + 1;
      }
      assert mine == theirs;
      return true;
    }

    /** m != other: the negation of ==. */
    method NotEquals(other: TMatrix) returns (ne: bool)
      requires Valid() && other.Valid()
      ensures ne <==> Contents() != other.Contents()
    {
      var eq := Equals(other);
      ne := !eq;
    }

    /** m = other: self-assignment changes nothing; otherwise the matrix
        takes the source's size and deep copies of all its rows. */
    method Assign(other: TMatrix)
      requires Valid() && other.Valid()
      modifies this
      ensures Valid()
      ensures size == old(other.size) && Contents() == old(other.Contents())
      ensures other.Contents() == old(other.Contents())
      ensures this == other ==> rows == old(rows)
      ensures this != other ==> forall k :: 0 <= k < size ==> fresh(rows[k]) && fresh(rows[k].data)
    {
      if this == other {
        return;
      }
      ghost var source := other.Contents();
      var rs := CopyRows(other.rows);
      assert ContentsOf(rs) == source && other.Contents() == source;
      rows, size := rs, other.size;
      assert other.rows == old(other.rows);
      assert other.Contents() == source;
    }

    /** m + other: throws on a size mismatch, otherwise a new matrix whose
        row i is row i of this plus row i of other. */
    method Add(other: TMatrix) returns (r: Result<TMatrix>)
      requires Valid() && other.Valid()
      ensures r.Failure? <==> size != other.size
      ensures r.Failure? ==> r.error == SizeMismatch
      ensures r.Success? ==> fresh(r.value) && r.value.Valid()
      ensures r.Success? ==> MatrixArith.Add(Contents(), other.Contents()) == Success(r.value.Contents())
      ensures r.Success? ==> forall k :: 0 <= k < r.value.size ==> fresh(r.value.rows[k]) && fresh(r.value.rows[k].data)
    {
      if size != other.size {
        return Failure(SizeMismatch);
      }
      ghost var mine, theirs := Contents(), other.Contents();
      var rs := AddRows(rows, other.rows);
      assert ContentsOf(rows) == mine && ContentsOf(other.rows) == theirs;
      ghost var result := ContentsOf(rs);
      assert MatrixArith.Add(mine, theirs) == Success(result);
      var m := new TMatrix.FromRows(rs);
      assert m.Contents() == result;
      assert Contents() == mine && other.Contents() == theirs;
      return Success(m);
    }

    /** m - other: throws on a size mismatch, otherwise the row-wise
        differences. */
    method Sub(other: TMatrix) returns (r: Result<TMatrix>)
      requires Valid() && other.Valid()
      ensures r.Failure? <==> size != other.size
      ensures r.Failure? ==> r.error == SizeMismatch
      ensures r.Success? ==> fresh(r.value) && r.value.Valid()
      ensures r.Success? ==> MatrixArith.Sub(Contents(), other.Contents()) == Success(r.value.Contents())
      ensures r.Success? ==> forall k :: 0 <= k < r.value.size ==> fresh(r.value.rows[k]) && fresh(r.value.rows[k].data)
    {
      if size != other.size {
        return Failure(SizeMismatch);
      }
      ghost var mine, theirs := Contents(), other.Contents();
      var rs := SubRows(rows, other.rows);
      assert ContentsOf(rows) == mine && ContentsOf(other.rows) == theirs;
      ghost var result := ContentsOf(rs);
      assert MatrixArith.Sub(mine, theirs) == Success(result);
      var m := new TMatrix.FromRows(rs);
      assert m.Contents() == result;
      assert Contents() == mine && other.Contents() == theirs;
      return Success(m);
    }
  }
}
