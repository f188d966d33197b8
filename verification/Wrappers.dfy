/** Value types shared by every module: optional and fallible results, bytes,
    the 64-bit unsigned integers of the services, and sizes of sets. */
module Wrappers {

  datatype Option<+T> = None | Some(value: T)

  datatype Result<+T, +E> = Ok(value: T) | Err(error: E)

  /** How one atomic replacement of a file ends: refused before the exchange,
      exchanged but not known to be synced (reported as an error), or exchanged
      and synced. */
  datatype Fate = Kept | Unsynced | Synced

  const U64_MAX: nat := 0xFFFF_FFFF_FFFF_FFFF

  type Byte = x: int | 0 <= x < 256

  /** A Rust `u64`; every operation that could leave the range is written out. */
  type U64 = x: int | 0 <= x <= 0xFFFF_FFFF_FFFF_FFFF

  function CheckedAdd(x: U64, y: U64): Option<U64> {
    if x + y <= U64_MAX then Some(x + y) else None
  }

  lemma SubsetSize<T>(a: set<T>, b: set<T>)
    requires a <= b
    ensures |a| <= |b|
  {
    assert b == a + (b - a);
  }
}
