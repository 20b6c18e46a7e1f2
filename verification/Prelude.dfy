/** Shared value types: optional values and the names used by the collaboration tables. */
module Prelude {
  datatype Option<+T> = None | Some(value: T)

  /** The stored key of a slot: a name, or none, in which case the slot is known by its position in the run. */
  datatype Key = Named(name: string) | Unnamed(row: nat)

  type byte = x: int | 0 <= x < 256

  function Decimal(n: nat): string {
    if n < 10 then [('0' as int + n) as char] else Decimal(n / 10) + Decimal(n % 10)
  }

  predicate Distinct<T(==)>(xs: seq<T>) {
    forall i, j | 0 <= i < j < |xs| :: xs[i] != xs[j]
  }
}
