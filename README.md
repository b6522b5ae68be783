# TVector / TMatrix — a verified model

This project models the two container templates of the matrix
laboratory library, instantiated at `int`, as their test suites define them:

- `TVector<int>`: a bounds-checked vector.
  - It owns a block of `size` integers and carries a start index.
  - Construction rejects a negative or too large size and a negative start index.
  - `v[pos]` throws outside `0 <= pos < size`.
  - `==` and `!=` compare sizes and elements.
  - `=` copies the source into this vector, a self-assignment being a no-op.
  - `v + k`, `v - k` and `v * k` act element-wise on a scalar.
  - `v1 + v2` and `v1 - v2` act element-wise, and `v1 * v2` is the dot product.
    All three throw when the sizes differ.
- `TMatrix<int>`: a square upper-triangular matrix of side `N`.
  - It is kept as a vector of `N` row vectors, row `i` holding `N - i` elements.
  - A freshly built matrix gives row `i` start index `i`.
  - Construction rejects a negative or too large side.
  - The copy constructor and conversion to and from the vector of rows give each row its own storage.
  - `m[i]` is a bounds-checked row access, and `m[i][j]` is then bounds-checked by the row.
  - It has `==`, `!=`, `=`, and row-wise `+` and `-`, which throw on a side mismatch.

Layout:

- `errors.dfy` (`Errors`) defines:
  - the three kinds of exception: `InvalidSize`, `OutOfRange` and `SizeMismatch`;
  - `Result` and `Outcome`, which stand for "returns a value or throws" and "returns or throws";
  - the two capacity limits.
- `vector_arith.dfy` (`VectorArith`) and `matrix_arith.dfy` (`MatrixArith`) hold:
  - the value-level meaning of the operators, on `seq<int>` and `seq<seq<int>>`;
  - the algebraic facts proved about them.
- `tvector.dfy` (`Vectors`) is the `TVector` class.
  - It is an `array<int>` with `size` and `startIndex` fields.
  - Its methods loop over the array and are proved against the functions of `VectorArith`.
- `tmatrix.dfy` (`Matrices`) is the `TMatrix` class, a sequence of `TVector` rows with pairwise distinct storage.
  - Its methods are proved against the functions of `MatrixArith`.
- `test_tvector.dfy` (`TVectorTests`) and `test_tmatrix.dfy` (`TMatrixTests`) restate both test suites against the model.
  - There is one method per test case, and its postcondition states at least what the test expects.
  - "Throws" is a `Failure` with the matching `Error`.
  - "Has its own memory" is inequality of the storage arrays.

Modelling choices:

- Capacity limits.
  - `MAX_VECTOR_SIZE` and `MAX_MATRIX_SIZE` are constants whose values are not fixed.
  - The tests build a vector of size 10 and a matrix of side 6.
  - A matrix row is a vector.
  - So the model only assumes `10 <= MAX_VECTOR_SIZE` and `6 <= MAX_MATRIX_SIZE <= MAX_VECTOR_SIZE`.
- Indexing.
  - `v[pos]` uses the raw offset `pos`; the start index is not subtracted.
  - The start index is stored and reported by `GetStartIndex`.
  - It plays no part in indexing or in equality.
  - The vector tests index only vectors with start index 0.
  - The matrix tests write `m[1][1]` on row 1, which has 3 elements and start index 1 in a matrix of side 4.
  - Position 1 is in range both as a raw offset (1) and as an offset shifted by the start index (0).
  - Reads in the model go back to the position that was written, so they see the written value either way.
  - So the tests do not tell the two readings apart.
- `TMatrix` construction.
  - `TMatrix(n)` is split into a validation of the side (`Create`) and an allocation (the constructor) reached only once that validation passes.
  - `TVector(n, s)` is split the same way.

## Model

| member | source | states |
|---|---|---|
| VectorArith.CheckVectorArgs | test/test_tvector.cpp:5-23 | construction succeeds exactly when `0 <= size <= MAX_VECTOR_SIZE` and `0 <= startIndex`; otherwise it throws `InvalidSize` |
| VectorArith.ConstructionCases | test/test_tvector.cpp:5-23 | sizes 5 and (4, 2) are accepted; `MAX_VECTOR_SIZE + 1`, `-5` and start index `-2` are rejected |
| VectorArith.At | test/test_tvector.cpp:64-83 | `v[p]` yields element `p` exactly when `0 <= p < size`, and throws `OutOfRange` otherwise (both directions) |
| VectorArith.Add | test/test_tvector.cpp:212-241 | `v1 + v2` succeeds exactly when the sizes agree, with element `i` equal to `v1[i] + v2[i]`; on a mismatch it throws `SizeMismatch` |
| VectorArith.Sub | test/test_tvector.cpp:243-272 | `v1 - v2` succeeds exactly when the sizes agree, with element `i` equal to `v1[i] - v2[i]`; on a mismatch it throws `SizeMismatch` |
| VectorArith.AddScalar | test/test_tvector.cpp:150-168 | `v + k` keeps the size and moves every element up by exactly `k` |
| VectorArith.SubScalar | test/test_tvector.cpp:171-189 | `v - k` keeps the size and moves every element down by exactly `k` |
| VectorArith.MulScalar | test/test_tvector.cpp:191-210 | `v * k` keeps the size and scales every element by `k` |
| VectorArith.Dot | test/test_tvector.cpp:274-295 | the sum of products is zero for empty operands and for a zero left operand, and non-negative for non-negative operands (each from the recursive calls' contracts) |
| VectorArith.DotProduct | test/test_tvector.cpp:274-306 | `v1 * v2` succeeds exactly when the sizes agree and then yields the sum of products; on a mismatch it throws `SizeMismatch` |
| VectorArith.SubScalarUndoesAddScalar | test/test_tvector.cpp:150-189 | `(v + k) - k == v` |
| VectorArith.MulScalarUnitAndZero | test/test_tvector.cpp:191-210 | `v * 1 == v` and `v * 0` is the zero vector of the same size |
| VectorArith.AddCommutesAndSubUndoesIt | test/test_tvector.cpp:212-272 | `v1 + v2 == v2 + v1` and `(v1 + v2) - v2 == v1` |
| VectorArith.AddElemsPrefix | test/test_tvector.cpp:212-230 | the element-wise sum of two prefixes is the prefix of the sum |
| VectorArith.DotSymmetric | test/test_tvector.cpp:274-295 | the dot product is symmetric, proved by induction |
| VectorArith.DotAddDistributes | test/test_tvector.cpp:274-295 | `(a + b) * c == a * c + b * c`, by induction |
| VectorArith.DotMulScalar | test/test_tvector.cpp:274-295 | `(a * k) * b == k * (a * b)`, by induction |
| VectorArith.DotZeros | test/test_tvector.cpp:274-295 | the dot product with a zero vector is 0, by induction |
| VectorArith.DotOnes | test/test_tvector.cpp:274-295 | two all-ones vectors of size `n` have dot product `n` (so 2 for the test's size 2) |
| VectorArith.ArithmeticScenarios | test/test_tvector.cpp:150-306 | the size-2 scalar and vector scenarios give the values the tests expect, and the size 2 vs 3 operations throw `SizeMismatch` |
| Vectors.TVector.constructor | test/test_tvector.cpp:5-8 | a valid vector in fresh storage with the given size and start index, all elements zero |
| Vectors.TVector.Create | test/test_tvector.cpp:5-23 | fails with `InvalidSize` exactly when `CheckVectorArgs` rejects the arguments; otherwise a fresh zero vector of that size and start index |
| Vectors.TVector.Copy | test/test_tvector.cpp:25-48 | the copy has the source's size, start index and elements, in fresh storage distinct from the source's |
| Vectors.TVector.GetSize | test/test_tvector.cpp:50-55 | the size is the number of elements |
| Vectors.TVector.GetStartIndex | test/test_tvector.cpp:57-62 | the start index the vector holds; `Create` states it is the one given, and `Copy` and `Assign` carry it over |
| Vectors.TVector.Get | test/test_tvector.cpp:64-83 | succeeds exactly when `0 <= pos < size`, returning element `pos`; `OutOfRange` otherwise |
| Vectors.TVector.Set | test/test_tvector.cpp:64-83 | in range, only element `pos` becomes `x`; out of range it throws `OutOfRange` and changes nothing |
| Vectors.TVector.Equals | test/test_tvector.cpp:128-148 | true exactly when the element sequences are equal; different sizes give false |
| Vectors.TVector.NotEquals | test/test_tvector.cpp:232-241 | the negation of `Equals` |
| Vectors.TVector.Assign | test/test_tvector.cpp:85-126 | afterwards size, start index and elements equal the source's; the source is unchanged; self-assignment keeps the storage, otherwise the storage is fresh |
| Vectors.TVector.AddScalar | test/test_tvector.cpp:150-168 | a fresh vector with elements `v[i] + k`; `v` unchanged |
| Vectors.TVector.SubScalar | test/test_tvector.cpp:171-189 | a fresh vector with elements `v[i] - k`; `v` unchanged |
| Vectors.TVector.MulScalar | test/test_tvector.cpp:191-210 | a fresh vector with elements `v[i] * k`; `v` unchanged |
| Vectors.TVector.Add | test/test_tvector.cpp:212-241 | fails with `SizeMismatch` exactly when the sizes differ; otherwise a fresh vector whose elements are `VectorArith.Add` of the operands |
| Vectors.TVector.Sub | test/test_tvector.cpp:243-272 | fails with `SizeMismatch` exactly when the sizes differ; otherwise a fresh vector whose elements are `VectorArith.Sub` of the operands |
| Vectors.TVector.Dot | test/test_tvector.cpp:274-306 | the accumulating loop returns exactly `VectorArith.DotProduct` of the operands, including the mismatch failure |
| MatrixArith.CheckMatrixArgs | test/test_tmatrix.cpp:5-18 | construction succeeds exactly when `0 <= n <= MAX_MATRIX_SIZE`; otherwise it throws `InvalidSize` |
| MatrixArith.ConstructionCases | test/test_tmatrix.cpp:5-18 | side 5 is accepted; `MAX_MATRIX_SIZE + 1` and `-5` are rejected |
| MatrixArith.ZeroTriangle | test/test_tmatrix.cpp:5-8 | the zero matrix of side `n` has `n` rows of triangular shape |
| MatrixArith.At | test/test_tmatrix.cpp:53-72 | `m[i][j]` yields the element exactly when `0 <= i < N` and `0 <= j < N - i`; otherwise it throws `OutOfRange` |
| MatrixArith.Update | test/test_tmatrix.cpp:53-58 | writing `m[i][j] = x` keeps every row length, puts `x` at `[i][j]`, and leaves every other element unchanged |
| MatrixArith.UpdateKeepsShape | test/test_tmatrix.cpp:53-58 | writing `m[i][j] = x` keeps the shape, reads back `x`, and leaves every other element unchanged |
| MatrixArith.Add | test/test_tmatrix.cpp:140-159 | `m1 + m2` succeeds exactly when the sides agree, each row the vector sum of the operands' rows; otherwise `SizeMismatch` |
| MatrixArith.Sub | test/test_tmatrix.cpp:161-176 | `m1 - m2` succeeds exactly when the sides agree, each row the vector difference of the operands' rows; otherwise `SizeMismatch` |
| MatrixArith.AddAt | test/test_tmatrix.cpp:140-168 | element `[i][j]` of a sum or difference is the sum or difference of the operands' elements |
| MatrixArith.AddCommutesAndSubUndoesIt | test/test_tmatrix.cpp:140-176 | `m1 + m2 == m2 + m1` and `(m1 + m2) - m2 == m1` |
| MatrixArith.ArithmeticScenarios | test/test_tmatrix.cpp:140-176 | side 4: `4 + 8` gives 12 at `[1][1]` and `5 - 6` gives -1; sides 4 and 6 throw `SizeMismatch` for both operators |
| Matrices.CopyRows | test/test_tmatrix.cpp:20-45 | each row copied into fresh, pairwise distinct storage with the same size, start index and elements |
| Matrices.ZeroRows | test/test_tmatrix.cpp:5-8 | `n` fresh rows, row `k` holding `n - k` zeros with start index `k`, with contents `ZeroTriangle(n)` |
| Matrices.AddRows | test/test_tmatrix.cpp:140-150 | the rows loop computes exactly `MatrixArith.Add` of the operands' contents, in fresh storage |
| Matrices.SubRows | test/test_tmatrix.cpp:161-168 | the rows loop computes exactly `MatrixArith.Sub` of the operands' contents, in fresh storage |
| Matrices.TMatrix.constructor | test/test_tmatrix.cpp:5-8 | a valid matrix of side `n` whose contents are `ZeroTriangle(n)`, rows in fresh storage, row `k` with start index `k` |
| Matrices.TMatrix.Create | test/test_tmatrix.cpp:5-18 | fails with `InvalidSize` exactly when `CheckMatrixArgs` rejects `n`; otherwise a fresh zero matrix of side `n` |
| Matrices.TMatrix.Copy | test/test_tmatrix.cpp:30-45 | the copy has the source's side and contents, and every row is in fresh storage |
| Matrices.TMatrix.FromRows | test/test_tmatrix.cpp:20-28 | a matrix from a triangular vector of rows: same side and contents, fresh row storage |
| Matrices.TMatrix.AsRows | test/test_tmatrix.cpp:20-28 | the base vector of rows: a deep copy with the matrix's contents |
| Matrices.TMatrix.GetSize | test/test_tmatrix.cpp:47-51 | the side is the number of rows, and the contents are triangular |
| Matrices.TMatrix.Row | test/test_tmatrix.cpp:61-72 | `m[i]` succeeds exactly when `0 <= i < N` and returns row `i` itself; `OutOfRange` otherwise |
| Matrices.TMatrix.Get | test/test_tmatrix.cpp:53-58 | reading `m[i][j]` returns exactly `MatrixArith.At` of the contents, including the `OutOfRange` cases |
| Matrices.TMatrix.Set | test/test_tmatrix.cpp:53-58 | writing `m[i][j] = x` succeeds exactly when the position exists, and then the contents become `MatrixArith.Update`; otherwise `OutOfRange` and nothing changes |
| Matrices.TMatrix.Equals | test/test_tmatrix.cpp:118-138 | true exactly when the contents are equal; different sides give false |
| Matrices.TMatrix.NotEquals | test/test_tmatrix.cpp:118-138 | the negation of `Equals` |
| Matrices.TMatrix.Assign | test/test_tmatrix.cpp:74-116 | afterwards side and contents equal the source's and the source is unchanged; self-assignment keeps the rows, otherwise every row is in fresh storage |
| Matrices.TMatrix.Add | test/test_tmatrix.cpp:140-159 | fails with `SizeMismatch` exactly when the sides differ; otherwise a fresh matrix whose contents are `MatrixArith.Add` of the operands, every row and its storage fresh, so the result shares nothing with the operands |
| Matrices.TMatrix.Sub | test/test_tmatrix.cpp:161-176 | fails with `SizeMismatch` exactly when the sides differ; otherwise a fresh matrix whose contents are `MatrixArith.Sub` of the operands, every row and its storage fresh, so the result shares nothing with the operands |
| TVectorTests.FillWith | test/test_tvector.cpp:97-100 | the fill loop `v[i] = x` over all positions leaves `size` copies of `x` |
| TVectorTests.CanCreateVectorWithPositiveLength | test/test_tvector.cpp:5-8 | `TVector(5)` does not throw |
| TVectorTests.CantCreateTooLargeVector | test/test_tvector.cpp:10-13 | `TVector(MAX_VECTOR_SIZE + 1)` throws `InvalidSize` |
| TVectorTests.ThrowsWhenCreateVectorWithNegativeLength | test/test_tvector.cpp:15-18 | `TVector(-5)` throws `InvalidSize` |
| TVectorTests.ThrowsWhenCreateVectorWithNegativeStartindex | test/test_tvector.cpp:20-23 | `TVector(5, -2)` throws `InvalidSize` |
| TVectorTests.CanCreateCopiedVector | test/test_tvector.cpp:25-30 | copying a vector of size 10 succeeds and gives size 10 |
| TVectorTests.CopiedVectorIsEqualToSourceOne | test/test_tvector.cpp:32-39 | after `v[0] = 1`, the copy compares equal to the source |
| TVectorTests.CopiedVectorHasItsOwnMemory | test/test_tvector.cpp:41-48 | the copy's storage is not the source's |
| TVectorTests.CanGetSize | test/test_tvector.cpp:50-55 | `TVector(4).GetSize()` is 4 |
| TVectorTests.CanGetStartIndex | test/test_tvector.cpp:57-62 | `TVector(4, 2).GetStartIndex()` is 2 |
| TVectorTests.CanSetAndGetElement | test/test_tvector.cpp:64-70 | after `v[0] = 4`, `v[0]` reads 4 |
| TVectorTests.ThrowsWhenSetElementWithNegativeIndex | test/test_tvector.cpp:72-77 | `v[-1]` throws `OutOfRange` |
| TVectorTests.ThrowsWhenSetElementWithTooLargeIndex | test/test_tvector.cpp:79-83 | `v[100]` on a size-4 vector throws `OutOfRange` |
| TVectorTests.CanAssignVectorToItself | test/test_tvector.cpp:85-90 | `v = v` succeeds and leaves `v` as it was |
| TVectorTests.CanAssignVectorsOfEqualSize | test/test_tvector.cpp:92-103 | after filling `v1` with ones and `v2 = v1`, the two compare equal |
| TVectorTests.AssignOperatorChangeVectorSize | test/test_tvector.cpp:105-112 | after `v2 = v1`, `v2`'s size is no longer 5 |
| TVectorTests.CanAssignVectorsOfDifferentSize | test/test_tvector.cpp:114-126 | after `v1[i] = i` and `v2 = v1` across sizes 2 and 5, the two compare equal |
| TVectorTests.CompareEqualVectorsReturnTrue | test/test_tvector.cpp:128-134 | a vector equals its copy |
| TVectorTests.CompareVectorWithItselfReturnTrue | test/test_tvector.cpp:136-141 | a vector equals itself |
| TVectorTests.VectorsWithDifferentSizeAreNotEqual | test/test_tvector.cpp:143-148 | vectors of sizes 2 and 1 are not equal |
| TVectorTests.CanAddScalarToVector | test/test_tvector.cpp:150-168 | `v2 = v1 + 2` over zeros gives 2, 2, and `v1[0]` stays 0 |
| TVectorTests.CanSubtractScalarFromVector | test/test_tvector.cpp:171-189 | `v2 = v1 - 2` over zeros gives -2, -2, and `v1[0]` stays 0 |
| TVectorTests.CanMultiplyScalarByVector | test/test_tvector.cpp:191-210 | `v2 = v1 * 2` over ones gives 2, 2, and `v1[0]` stays 1 |
| TVectorTests.CanAddVectorsWithEqualSize | test/test_tvector.cpp:212-230 | the sum of zeros and ones holds `v1[i] + v2[i]` at 0 and 1 |
| TVectorTests.CantAddVectorsWithNotEqualSize | test/test_tvector.cpp:232-241 | sizes 2 and 3 compare unequal, and `v1 + v2` throws `SizeMismatch` |
| TVectorTests.CanSubtractVectorsWithEqualSize | test/test_tvector.cpp:243-262 | the difference of zeros and ones holds `v1[i] - v2[i]` at 0 and 1 |
| TVectorTests.CantSubtractVectorsWithNotEqualSize | test/test_tvector.cpp:264-272 | sizes 2 and 3 compare unequal, and `v1 - v2` throws `SizeMismatch` |
| TVectorTests.CanMultiplyVectorsWithEqualSize | test/test_tvector.cpp:274-295 | the dot product of two all-ones vectors of size 2 is 2 |
| TVectorTests.CantMultiplyVectorsWithNotEqualSize | test/test_tvector.cpp:297-306 | sizes 2 and 3 compare unequal, and `v1 * v2` throws `SizeMismatch` |
| TMatrixTests.ZeroMatrixWith | test/test_tmatrix.cpp:142-144 | a fresh zero matrix of side `n` with `m[i][j] = x` written |
| TMatrixTests.CanCreateMatrixWithPositiveLength | test/test_tmatrix.cpp:5-8 | `TMatrix(5)` does not throw |
| TMatrixTests.CantCreateTooLargeMatrix | test/test_tmatrix.cpp:10-13 | `TMatrix(MAX_MATRIX_SIZE + 1)` throws `InvalidSize` |
| TMatrixTests.ThrowsWhenCreateMatrixWithNegativeLength | test/test_tmatrix.cpp:15-18 | `TMatrix(-5)` throws `InvalidSize` |
| TMatrixTests.CanCreateCopiedMatrix | test/test_tmatrix.cpp:20-28 | a matrix built from the vector of rows of `TMatrix(5)` has side 5 |
| TMatrixTests.CopiedMatrixIsEqualToSourceOne | test/test_tmatrix.cpp:30-37 | after `m[0][0] = 1`, the copy compares equal to the source |
| TMatrixTests.CopiedMatrixHasItsOwnMemory | test/test_tmatrix.cpp:39-45 | the first rows of a matrix and its copy do not share storage |
| TMatrixTests.CanGetSize | test/test_tmatrix.cpp:47-51 | `TMatrix(4).GetSize()` is 4 |
| TMatrixTests.CanSetAndGetElement | test/test_tmatrix.cpp:53-58 | after `m[0][0] = 1`, `m[0][0]` reads 1 |
| TMatrixTests.ThrowsWhenSetElementWithNegativeIndex | test/test_tmatrix.cpp:61-65 | `m[-1]` throws `OutOfRange` |
| TMatrixTests.ThrowsWhenSetElementWithTooLargeIndex | test/test_tmatrix.cpp:67-72 | `m[10000]` throws `OutOfRange` |
| TMatrixTests.CanAssignMatrixToItself | test/test_tmatrix.cpp:74-78 | `m = m` succeeds and `m` is still the zero matrix |
| TMatrixTests.CanAssignMatricesOfEqualSize | test/test_tmatrix.cpp:80-91 | after `m2 = m1`, the two compare equal |
| TMatrixTests.AssignOperatorChangeMatrixSize | test/test_tmatrix.cpp:93-102 | after `m2 = m1`, `m2`'s side is no longer 3 |
| TMatrixTests.CanAssignMatricesOfDifferentSize | test/test_tmatrix.cpp:104-116 | after `m2 = m1` across sides 2 and 5, the two compare equal |
| TMatrixTests.CompareEqualMatricesReturnTrue | test/test_tmatrix.cpp:118-124 | two zero matrices of side 2 are equal |
| TMatrixTests.CompareMatrixWithItselfReturnTrue | test/test_tmatrix.cpp:126-131 | a matrix equals itself |
| TMatrixTests.MatricesWithDifferentSizeAreNotEqual | test/test_tmatrix.cpp:133-138 | matrices of sides 3 and 4 are not equal |
| TMatrixTests.CanAddMatricesWithEqualSize | test/test_tmatrix.cpp:140-150 | the sum of two side-4 matrices does not throw and holds 12 at `[1][1]` |
| TMatrixTests.CantAddMatricesWithNotEqualSize | test/test_tmatrix.cpp:153-159 | sides 4 and 6: `m1 + m2` throws `SizeMismatch` |
| TMatrixTests.CanSubtractMatricesWithEqualSize | test/test_tmatrix.cpp:161-168 | the difference of two side-4 matrices does not throw and holds -1 at `[1][1]` |
| TMatrixTests.CantSubtractMatrixesWithNotEqualSize | test/test_tmatrix.cpp:170-176 | sides 4 and 6: `m1 - m2` throws `SizeMismatch` |

## Left out

- The library header `utmatrix.h` is not part of this model.
  - The behaviour modelled is the one its test suites fix.
  - Where the tests leave a choice open (how the start index takes part in indexing, the capacity values, whether assignment reuses storage), the model takes the reading stated above.
- Stream input and output of vectors and matrices are not modelled: they are I/O.
- Element types other than `int` are not modelled; the templates are instantiated at `int` only.
- Fixed-width `int` overflow is not modelled. Elements are unbounded integers, and no test reaches the 32-bit range.
- The concrete values of `MAX_VECTOR_SIZE` and `MAX_MATRIX_SIZE` are not modelled. They are constants constrained only by the bounds the tests need.
- The address comparison `&v[0] != &v_copy[0]` is modelled as inequality of the storage arrays, not of element addresses.
- Vectors.TVector.Assign: states that a non-self assignment always ends in fresh storage. It does not model reuse of an existing block of equal size, which the tests cannot observe.
- Matrices.TMatrix.FromRows: requires the vector of rows to have the triangular shape. A vector of rows of another shape is not modelled, because no test builds one.
- TMatrixTests.CanAssignMatricesOfEqualSize: the row assignment `m1[i] = 1` (a scalar converted to a row vector) is not modelled, so the model compares zero matrices.
- TMatrixTests.CanAssignMatricesOfDifferentSize: the row assignment `m1[i] = 11` is likewise not modelled.
- TMatrixTests.CanAddMatricesWithEqualSize: the copy `res(m1 + m2)` is not taken; the sum is read directly. The same holds for `res(m1 - m2)` in TMatrixTests.CanSubtractMatricesWithEqualSize.
