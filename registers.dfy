/** Machine-level types shared by the drivers of the ATmega128 board library. */
module Registers {

  /** An 8-bit I/O register, or a C `byte` / `unsigned char` variable. */
  type Byte = bv8

  /** Values of a C `unsigned char` used as a number. */
  type U8 = x: int | 0 <= x < 0x100

  /** Values of a C `unsigned int` on the AVR: 16 bits wide. */
  type U16 = x: int | 0 <= x < 0x1_0000

  /** Values of a C `int` on the AVR: 16-bit two's complement. */
  type I16 = x: int | -0x8000 <= x < 0x8000

  datatype Option<T> = None | Some(value: T)

  /** `x--` on a 16-bit unsigned variable: 0 wraps around to 65535. */
  function Dec16(x: U16): (r: U16)
    ensures (r + 1) % 0x1_0000 == x
    ensures x > 0 ==> r == x - 1
  {
    if x == 0 then 0xFFFF else x - 1
  }

  /** `x++` on a 16-bit unsigned variable: 65535 wraps around to 0. */
  function Inc16(x: U16): (r: U16)
    ensures (x + 1) % 0x1_0000 == r
    ensures x < 0xFFFF ==> r == x + 1
  {
    if x == 0xFFFF then 0 else x + 1
  }

  /** `a + b` stored back into a 16-bit unsigned variable. */
  function Add16(a: U16, b: U16): (r: U16)
    ensures r == (a + b) % 0x1_0000
  {
    if a + b < 0x1_0000 then a + b else a + b - 0x1_0000
  }

  /** Conversion of a 16-bit signed `int` to a 16-bit unsigned register. */
  function ToU16(x: I16): (r: U16)
    ensures r % 0x1_0000 == x % 0x1_0000
    ensures x >= 0 ==> r == x
  {
    if x < 0 then x + 0x1_0000 else x
  }

  /**
   * `_BV(k)` as it lands in an 8-bit register: `1 << k` is computed as an
   * `int`, so for k >= 8 none of its bits fall inside the register.
   */
  function Bv(k: nat): (r: Byte)
    ensures k < 8 ==> r != 0 && r & (r - 1) == 0 && r >> k == 1
    ensures k >= 8 ==> r == 0
  {
    if k < 8 then (1 as Byte) << k else 0
  }

  /** The smaller of two numbers. */
  function Min(a: int, b: int): (m: int)
    ensures m <= a && m <= b && (m == a || m == b)
  {
    if a <= b then a else b
  }

  /** Bit k of a register, as a truth value. */
  predicate BitSet(r: Byte, k: nat) {
    r & Bv(k) != 0
  }
}
