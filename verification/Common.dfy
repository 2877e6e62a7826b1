// Shared vocabulary of the model.

module Common {

  /** A value that may be absent: the source's null or undefined. */
  datatype Option<+T> = None | Some(value: T)

  // Identifiers drawn from UUID generators or digests are numbers; a fresh identifier
  // is a number that was never used before.
  type JobId = nat
  type SearchId = nat
  type Token = nat
  type Fingerprint = nat

  lemma SubsetCount<T>(a: set<T>, b: set<T>)
    requires a <= b
    ensures |a| <= |b|
  {
    assert b == a + (b - a);
  }
}
