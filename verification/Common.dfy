/** What several modules share. */
module Common {
  datatype Option<+T> = None | Some(value: T)

  type byte = x: int | 0 <= x < 256

  lemma SubsetSize<T>(a: set<T>, b: set<T>)
    requires a <= b
    ensures |a| <= |b|
  {
    assert b == a + (b - a);
  }
}
