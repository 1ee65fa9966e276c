/**
 * The one piece of the register framework both peripherals rely on: splitting
 * a 32-bit register value into its bits, least significant first.
 */
module BitHelper {

  const WordBits := 32

  /** Whether bit i of v is set. */
  predicate IsBitSet(v: bv32, i: nat)
    requires i < WordBits
  {
    (v >> i) & 1 == 1
  }

  /** Bit i of the result is bit i of v. */
  function GetBits(v: bv32): (bits: seq<bool>)
  {
    seq(WordBits, i requires 0 <= i < WordBits => IsBitSet(v, i))
  }
}
