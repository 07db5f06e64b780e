/** Mouse buttons of src/mouse.rs: the `Buts` bit set and the `But` enum. */
module Mouse {
  /** `Buts` is a set of `u8` bit flags. */
  type Buts = bv8

  const LEFT: Buts := 0x01
  const MIDDLE: Buts := 0x02
  const RIGHT: Buts := 0x04
  const MASK: Buts := 0x07

  /** A single mouse button. */
  datatype But = Left | Middle | Right

  /** `Buts::default()`. */
  function Default(): Buts { 0 }

  /** `b` has exactly one bit set. */
  predicate SingleBit(b: Buts) {
    b != 0 && b & (b - 1) == 0
  }

  /** The three buttons are distinct single bits, and `MASK` is exactly their union. */
  lemma ButtonBits()
    ensures SingleBit(LEFT) && SingleBit(MIDDLE) && SingleBit(RIGHT)
    ensures LEFT & MIDDLE == 0 && LEFT & RIGHT == 0 && MIDDLE & RIGHT == 0
    ensures MASK == LEFT | MIDDLE | RIGHT
  {
  }

  /** The default set holds no button. */
  lemma DefaultIsEmpty()
    ensures Default() & MASK == 0
    ensures Default() & LEFT == 0 && Default() & MIDDLE == 0 && Default() & RIGHT == 0
  {
  }
}
