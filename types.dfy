/** Machine integer widths of the ATmega328P firmware and the range of its
    10-bit analog-to-digital converter. Dafny integers are unbounded, so every
    width the firmware relies on is a subset type here, and every narrowing
    cast the firmware performs is written out. */
module Types {

  /** `uint8_t`. */
  type uint8 = x: int | 0 <= x < 0x100

  /** `uint16_t`. */
  type uint16 = x: int | 0 <= x < 0x1_0000

  /** A value returned by `analogRead`: the converter has 10 bits. */
  type Adc = x: int | 0 <= x < 1024

  /** One output level of a digital pin (`LOW` = 0, `HIGH` = 1). */
  type Bit = x: int | 0 <= x < 2

  /** The implicit conversion of a non-negative value to `uint8_t`: the
      value is taken modulo 2^8. */
  function Trunc8(x: nat): (r: uint8)
    ensures x < 0x100 ==> r == x
    ensures (x - r) % 0x100 == 0
  {
    x % 0x100
  }

  /** The conversion to `uint16_t` that an unsigned 16-bit addition performs. */
  function Wrap16(x: nat): (r: uint16)
    ensures x < 0x1_0000 ==> r == x
    ensures (x - r) % 0x1_0000 == 0
  {
    x % 0x1_0000
  }

  datatype Option<+T> = None | Some(value: T)
}
