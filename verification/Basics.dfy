/** Types shared by the models of the client's components. */
module Basics {
  datatype Option<+T> = None | Some(value: T)

  datatype Result<+T, +E> = Ok(value: T) | Err(error: E)

  /** Go strings and byte slices are byte sequences; no text encoding is implied. */
  type Byte = b: int | 0 <= b < 256
  type Bytes = seq<Byte>

  function Min(a: int, b: int): int {
    if a <= b then a else b
  }

  lemma SubsetSize<T>(a: set<T>, b: set<T>)
    requires a <= b
    ensures |a| <= |b|
  {
    assert b == a + (b - a);
  }
}
