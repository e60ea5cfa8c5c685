module Common {

  datatype Option<+T> = None | Some(value: T)

  /** The larger of two integers. */
  function Max(a: int, b: int): int {
    if a < b then b else a
  }

  /** How far b lies above a; 0 when it does not. */
  function Distance(a: int, b: int): nat {
    if a < b then b - a else 0
  }

  lemma SubsetIsSmaller<T>(a: set<T>, b: set<T>)
    requires a <= b
    ensures |a| <= |b|
  {
    assert b == a + (b - a);
  }
}
