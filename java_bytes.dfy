/**
 * Java's `byte`, as the band's frames carry it.
 *
 * A byte is kept as its eight-bit pattern read unsigned (0..255).  Java's
 * narrowing cast `(byte) x` keeps the low eight bits of an `int`, and Java
 * widens a `byte` back to `int` with sign extension; both are written out here
 * so that every cast and every signed read of the source is explicit.
 */
module JavaBytes {
  type byte = b: int | 0 <= b < 256

  /** Java's `(byte) x`: the low eight bits of `x` (two's complement). */
  function ByteCast(x: int): (r: byte)
    ensures (x - r) % 256 == 0
    ensures 0 <= x < 256 ==> r == x
  {
    x % 256
  }

  /** The `int` Java obtains when it widens the byte `b` (sign extension). */
  function Signed(b: byte): (v: int)
    ensures -128 <= v < 128
    ensures ByteCast(v) == b
    ensures v == b <==> b < 128
  {
    if b < 128 then b else b - 256
  }

  /** Casting a signed Java byte value and widening it again gives it back. */
  lemma SignedByteCast(v: int)
    requires -128 <= v < 128
    ensures Signed(ByteCast(v)) == v
  {
  }
}
