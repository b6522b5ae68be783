/** Failure signals of the container library and the two capacity limits
    that construction is validated against. */
module Errors {

  /** The three kinds of exception the containers throw. */
  datatype Error =
    | InvalidSize   // negative or too large size, negative start index
    | OutOfRange    // index outside 0 <= p < size
    | SizeMismatch  // binary operation on operands of different sizes

  /** The value of an operation that either returns a value or throws. */
  datatype Result<+T> = Success(value: T) | Failure(error: Error)

  /** The outcome of an operation that returns nothing or throws. */
  datatype Outcome = Pass | Fail(error: Error)

  /** A vector of size 10 can be built, so the limit is at least that. */
  type VectorCapacity = n: int | 10 <= n witness 10

  /** A matrix of side 6 can be built, and every row of a matrix is a vector,
      so the matrix limit lies between 6 and the vector limit. */
  type MatrixCapacity = n: int | 6 <= n <= MAX_VECTOR_SIZE witness 6

  /** The real values of the limits are not part of this model: the
      constants are left uninterpreted beyond the bounds of their types. */
  const MAX_VECTOR_SIZE: VectorCapacity
  const MAX_MATRIX_SIZE: MatrixCapacity
}
