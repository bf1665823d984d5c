/** Small definitions that several components share. */
module Common {
  datatype Option<+T> = None | Some(value: T)

  /** The modulus of Go's uint64 arithmetic. */
  const U64_MODULUS: nat := 0x1_0000_0000_0000_0000

  /** Go's `a + b` on uint64. */
  function AddU64(a: nat, b: nat): nat {
    (a + b) % U64_MODULUS
  }

  predicate NoDuplicates<T(==)>(s: seq<T>) {
    forall i, j | 0 <= i < j < |s| :: s[i] != s[j]
  }

  lemma ConcatAssociates<T>(a: seq<T>, b: seq<T>, c: seq<T>)
    ensures (a + b) + c == a + (b + c)
  {
  }
}
