/** Machine words. */
module Words {
  const TwoTo63: int := 0x8000_0000_0000_0000
  const TwoTo64: int := 0x1_0000_0000_0000_0000
  const MaxU64: int := 0xFFFF_FFFF_FFFF_FFFF

  type u64 = x: int | 0 <= x < TwoTo64
}
