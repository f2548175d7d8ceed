/** Bytes as numbers, and the four digits of a 32-bit number in base 256. */
module Bytes {
  newtype Byte = b: int | 0 <= b < 256

  const LIMIT_32: nat := 0x1_0000_0000

  lemma FourDigits(n: nat)
    requires n < LIMIT_32
    ensures n / 0x100_0000 < 256
    ensures n == n / 0x100_0000 * 0x100_0000 + n / 0x1_0000 % 256 * 0x1_0000 + n / 256 % 256 * 256 + n % 256
  {
    assert n / 0x1_0000 == n / 0x100_0000 * 256 + n / 0x1_0000 % 256;
    assert n / 256 == n / 0x1_0000 * 256 + n / 256 % 256;
  }
}
