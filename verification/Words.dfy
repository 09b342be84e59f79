/** Machine words of the two boards, as bounded integers with explicit wrap-around. */
module Words {
  const U32: int := 0x1_0000_0000

  type Bit = b: int | 0 <= b < 2
  type Byte = b: int | 0 <= b < 0x100
  type Half = h: int | 0 <= h < 0x1_0000
  type Word = w: int | 0 <= w < 0x1_0000_0000

  datatype Option<+T> = None | Some(value: T)

  /** Unsigned 32-bit addition. */
  function Add32(a: int, b: int): (r: Word) {
    (a + b) % U32
  }

  /** Unsigned 32-bit subtraction. */
  function Sub32(a: int, b: int): (r: Word) {
    (a - b) % U32
  }

  function Flip(b: Bit): Bit {
    1 - b
  }

  /** The difference of two wrapped counters is the true difference while that fits a word. */
  lemma WrappedDifference(high: int, low: int)
    requires 0 <= high - low < U32
    ensures Sub32(high % U32, low % U32) == high - low
  {
    assert (high % U32 - low % U32) % U32 == (high - low) % U32;
  }

  /** The stored value of an unbounded count. */
  function Wrap(n: int): (r: Word) {
    n % U32
  }

  lemma WrappedSum(a: int, b: int)
    ensures Add32(Wrap(a), b) == Wrap(a + b)
    ensures Add32(Wrap(a), Wrap(b)) == Wrap(a + b)
  {
  }
}
