/** What the components share: optional values, results, the two links, and NuttX error results. */
module Basics {

  datatype Option<+T> = None | Some(value: T)

  datatype Result<+T, +E> = Ok(value: T) | Err(error: E)

  datatype Link = Classic | Ble

  const UINT64_MAX: nat := 0xFFFF_FFFF_FFFF_FFFF

  // Negative error results, as the source returns them.
  const E2BIG: int := -7
  const EAGAIN: int := -11
  const EBUSY: int := -16
  const ENODEV: int := -19
  const EINVAL: int := -22
  const ENOSPC: int := -28
  const EOVERFLOW: int := -75
  const ENOTSUP: int := -95
  const ENOTCONN: int := -107
  const ETIMEDOUT: int := -110
  const ESTALE: int := -116

  /** A slice of a slice. */
  lemma Subslice<T>(s: seq<T>, at: nat, n: nat, i: nat, j: nat)
    requires at + n <= |s| && i <= j <= n
    ensures s[at..at + n][i..j] == s[at + i..at + j]
  {
    var x, y := s[at..at + n][i..j], s[at + i..at + j];
    forall k | 0 <= k < j - i ensures x[k] == y[k] { assert y[k] == s[at + i + k]; }
  }
}

/** Byte strings. */
module Octets {

  newtype byte = b: int | 0 <= b < 256
  type Bytes = seq<byte>

  function Zeros(n: nat): (r: Bytes)
    ensures |r| == n && forall i :: 0 <= i < n ==> r[i] == 0
  {
    seq(n, i => 0)
  }
}
