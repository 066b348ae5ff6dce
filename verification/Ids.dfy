/** Block addresses and the stripe each one maps to. */
module Ids {

  type byte = x: int | 0 <= x < 256

  /** The two widths a store may address its blocks at. */
  const NarrowWidth: nat := 16
  const WideWidth: nat := 32

  /** The address of a block: the hash of its bytes, 16 or 32 bytes wide. */
  type BlockId = s: seq<byte> | |s| == 16 || |s| == 32 witness seq(16, _ => 0)

  datatype Option<+T> = None | Some(value: T)

  /** Index of the stripe that guards `id` in a table of `n` stripes: the two
      leading bytes, big-endian, modulo the table size. */
  function StripeOf(id: BlockId, n: nat): (r: nat)
    requires n > 0
    ensures r < n
  {
    (id[0] * 256 + id[1]) % n
  }

  ghost predicate NoDup<T(!new)>(s: seq<T>) {
    forall i, j :: 0 <= i < j < |s| ==> s[i] != s[j]
  }
}
