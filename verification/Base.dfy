/** Shared vocabulary: outcomes, node and channel identifiers, the order on node ids. */
module Base {
  datatype Option<+T> = None | Some(value: T)

  datatype Result<+T, +E> = Ok(value: T) | Err(error: E)

  /**
   * A node id is the number its public key's hex string denotes: on strings of equal length and
   * case Go's string order is the order of these numbers.
   */
  type NodeId = int

  /** A short channel id; only ever compared for equality. */
  type Scid = int

  const UINT64: nat := 0x1_0000_0000_0000_0000

  function Min(a: int, b: int): int {
    if a < b then a else b
  }

  predicate Distinct<T(==)>(s: seq<T>) {
    forall i, j :: 0 <= i < j < |s| ==> s[i] != s[j]
  }

  lemma MulMonotone(a: nat, b: nat, k: nat)
    requires a <= b
    ensures a * k <= b * k && k * a <= k * b
  {
  }

  lemma MulStrict(a: nat, b: nat, k: nat)
    requires a < b
    ensures k * a + k <= k * b
  {
    MulMonotone(a + 1, b, k);
  }
}
