/** Machine widths shared by every component: the source counts in fixed-size
    words, so wrap-around is written out with these functions. */
module Words {

  const TWO32 := 0x1_0000_0000
  const TWO63 := 0x8000_0000_0000_0000
  const TWO64 := 0x1_0000_0000_0000_0000

  type u32 = x: int | 0 <= x < TWO32
  type u64 = x: int | 0 <= x < TWO64

  /** Unsigned 32-bit addition. */
  function Add32(a: u32, b: u32): u32 {
    (a + b) % TWO32
  }

  /** Unsigned 64-bit addition. */
  function Add64(a: u64, b: u64): u64 {
    (a + b) % TWO64
  }

  /** Unsigned 64-bit subtraction. */
  function Sub64(a: u64, b: u64): u64 {
    (a - b) % TWO64
  }

  /** Bitwise complement of a 64-bit word. */
  function Not64(a: u64): u64 {
    TWO64 - 1 - a
  }

  /** The two's complement reading of an integer in a signed 64-bit word. */
  function Signed64(x: int): int {
    (x + TWO63) % TWO64 - TWO63
  }

  function Min(a: int, b: int): int {
    if a <= b then a else b
  }

  function Max(a: int, b: int): int {
    if a >= b then a else b
  }

  function Pow(b: nat, k: nat): nat {
    if k == 0 then 1 else b * Pow(b, k - 1)
  }
}
