/** 32-bit machine words. */
module Words {
  const TWO_31 := 0x8000_0000
  const TWO_32 := 0x1_0000_0000

  type uint32 = x: int | 0 <= x < TWO_32
}
