/** Small value types shared by the other modules. */
module Wrappers {
  datatype Option<+T> = None | Some(value: T)

  /** A JSON argument that may be left out, may fail to parse, or carries a value. */
  datatype Raw<+T> = Absent | Malformed | Json(value: T)

  lemma SubsetSize<T>(a: set<T>, b: set<T>)
    requires a <= b
    ensures |a| <= |b|
  {
    assert b == a + (b - a);
  }
}
