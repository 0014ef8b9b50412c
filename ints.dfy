/** Machine-integer helpers shared by the editor and input models. */
module Ints {

  /** Rust's `i32`: mouse coordinates are stored with this width. */
  newtype i32 = x: int | -0x8000_0000 <= x < 0x8000_0000

  /** `v as u32` for a value that fits in 32 bits: two's-complement reinterpretation. */
  function AsU32(v: int): (r: int)
    ensures 0 <= r < 0x1_0000_0000
    ensures 0 <= v < 0x1_0000_0000 ==> r == v
    ensures -0x1_0000_0000 <= v < 0 ==> r == v + 0x1_0000_0000
  {
    v % 0x1_0000_0000
  }

  function Max(a: int, b: int): int { if a < b then b else a }

  function Min(a: int, b: int): int { if a < b then a else b }

  /** The index reached from `i` after `n` steps of `i := (i + 1) % 3`. */
  function CycleAfter(i: int, n: nat): int
    decreases n
  {
    if n == 0 then i else CycleAfter((i + 1) % 3, n - 1)
  }

  /**
   * Advancing a three-entry zoom index n times lands on entry (i + n) mod 3,
   * so a table indexed by it is visited in order, round and round.
   */
  lemma {:induction false} CycleAfterIsModular(i: int, n: nat)
    requires 0 <= i < 3
    ensures CycleAfter(i, n) == (i + n) % 3
    ensures 0 <= CycleAfter(i, n) < 3
    decreases n
  {
    if n > 0 {
      CycleAfterIsModular((i + 1) % 3, n - 1);
      assert ((i + 1) % 3 + (n - 1)) % 3 == (i + n) % 3;
    }
  }
}
