/**
 * The 16-bit register words of the TCA9535 and the bit and byte operations the
 * driver performs on them.
 *
 * A register word holds one bit per pin: pin 0 is the least significant bit,
 * pin 15 the most significant. On the wire a word travels as two bytes, the low
 * byte (pins 0-7, port 0) first and the high byte (pins 8-15, port 1) second.
 *
 * `Bit` is the reference reading of a word, pin by pin; every mask operation
 * below is characterised against it, and `BitsDetermineWord` shows that the
 * sixteen pin bits determine the word, so those characterisations are exact.
 */
module Registers {

  /** A pin number, 0 to 15: exactly the pins of the expander. */
  type Pin = bv4

  /** Register addresses of the TCA9535 command byte. */
  const INPUT_PORT: bv8 := 0x00
  const OUTPUT_PORT: bv8 := 0x02
  const POLARITY_INVERSION: bv8 := 0x04
  const CONFIGURATION: bv8 := 0x06

  /** Power-on values of the three writable registers. */
  const OUTPUT_RESET: bv16 := 0xFFFF
  const POLARITY_RESET: bv16 := 0x0000
  const DIRECTION_RESET: bv16 := 0xFFFF

  /** Reference definition: pin `p` of word `v` is 1. */
  predicate Bit(v: bv16, p: Pin) {
    (v >> p) & 1 == 1
  }

  /** The sixteen pin bits determine a word: words that agree on every pin are equal. */
  lemma BitsDetermineWord(a: bv16, b: bv16)
    requires forall p: Pin :: Bit(a, p) == Bit(b, p)
    ensures a == b
  {
    LowPinsDetermineLowByte(a, b);
    HighPinsDetermineHighByte(a, b);
  }

  lemma LowPinsDetermineLowByte(a: bv16, b: bv16)
    requires forall p: Pin :: Bit(a, p) == Bit(b, p)
    ensures a & 0xFF == b & 0xFF
  {
    assert Bit(a, 0) == Bit(b, 0);
    assert Bit(a, 1) == Bit(b, 1);
    assert Bit(a, 2) == Bit(b, 2);
    assert Bit(a, 3) == Bit(b, 3);
    assert Bit(a, 4) == Bit(b, 4);
    assert Bit(a, 5) == Bit(b, 5);
    assert Bit(a, 6) == Bit(b, 6);
    assert Bit(a, 7) == Bit(b, 7);
  }

  lemma HighPinsDetermineHighByte(a: bv16, b: bv16)
    requires forall p: Pin :: Bit(a, p) == Bit(b, p)
    ensures a >> 8 == b >> 8
  {
    assert Bit(a, 8) == Bit(b, 8);
    assert Bit(a, 9) == Bit(b, 9);
    assert Bit(a, 10) == Bit(b, 10);
    assert Bit(a, 11) == Bit(b, 11);
    assert Bit(a, 12) == Bit(b, 12);
    assert Bit(a, 13) == Bit(b, 13);
    assert Bit(a, 14) == Bit(b, 14);
    assert Bit(a, 15) == Bit(b, 15);
  }

  // ---------------------------------------------------------------------------
  // Masks
  // ---------------------------------------------------------------------------

  /** `1 << pin`: the word with pin `pin` alone set. */
  function PinMask(pin: Pin): (m: bv16)
    ensures forall p: Pin :: Bit(m, p) <==> p == pin
  {
    var m: bv16 := 1 << pin;
    PinMaskBits(pin, m);
    m
  }

  lemma PinMaskBits(pin: Pin, m: bv16)
    requires m == 1 << pin
    ensures forall p: Pin :: Bit(m, p) <==> p == pin
  {
    forall p: Pin ensures Bit(m, p) <==> p == pin {
      PinMaskBitAt(pin, p);
    }
  }

  lemma PinMaskBitAt(pin: Pin, p: Pin)
    ensures Bit(1 << pin, p) <==> p == pin
  {
  }

  /** `v | m`: the pins of `m` are set, every other pin keeps its value in `v`. */
  function SetBits(v: bv16, m: bv16): (r: bv16)
    ensures forall p: Pin :: Bit(r, p) == (Bit(v, p) || Bit(m, p))
  {
    SetBitsPinwise(v, m);
    v | m
  }

  lemma SetBitsPinwise(v: bv16, m: bv16)
    ensures forall p: Pin :: Bit(v | m, p) == (Bit(v, p) || Bit(m, p))
  {
    forall p: Pin ensures Bit(v | m, p) == (Bit(v, p) || Bit(m, p)) {
      OrBitAt(v, m, p);
    }
  }

  lemma OrBitAt(v: bv16, m: bv16, p: Pin)
    ensures Bit(v | m, p) == (Bit(v, p) || Bit(m, p))
  {
  }

  /** `v & ~m`: the pins of `m` are cleared, every other pin keeps its value in `v`. */
  function ClearBits(v: bv16, m: bv16): (r: bv16)
    ensures forall p: Pin :: Bit(r, p) == (Bit(v, p) && !Bit(m, p))
  {
    ClearBitsPinwise(v, m);
    v & !m
  }

  lemma ClearBitsPinwise(v: bv16, m: bv16)
    ensures forall p: Pin :: Bit(v & !m, p) == (Bit(v, p) && !Bit(m, p))
  {
    forall p: Pin ensures Bit(v & !m, p) == (Bit(v, p) && !Bit(m, p)) {
      AndNotBitAt(v, m, p);
    }
  }

  lemma AndNotBitAt(v: bv16, m: bv16, p: Pin)
    ensures Bit(v & !m, p) == (Bit(v, p) && !Bit(m, p))
  {
  }

  /**
   * `SetBits` is the only word that sets the pins of `m` and keeps every other
   * pin of `v`: the pin-by-pin description and the word operation agree both ways.
   */
  lemma {:induction false} SetBitsIsPinwiseUpdate(v: bv16, m: bv16, r: bv16)
    ensures r == SetBits(v, m) <==> forall p: Pin :: Bit(r, p) == (Bit(v, p) || Bit(m, p))
  {
    if forall p: Pin :: Bit(r, p) == (Bit(v, p) || Bit(m, p)) {
      BitsDetermineWord(r, SetBits(v, m));
    }
  }

  /**
   * `ClearBits` is the only word that clears the pins of `m` and keeps every
   * other pin of `v`.
   */
  lemma {:induction false} ClearBitsIsPinwiseUpdate(v: bv16, m: bv16, r: bv16)
    ensures r == ClearBits(v, m) <==> forall p: Pin :: Bit(r, p) == (Bit(v, p) && !Bit(m, p))
  {
    if forall p: Pin :: Bit(r, p) == (Bit(v, p) && !Bit(m, p)) {
      BitsDetermineWord(r, ClearBits(v, m));
    }
  }

  /** Setting the same mask twice is the same as setting it once. */
  lemma SetBitsIdempotent(v: bv16, m: bv16)
    ensures SetBits(SetBits(v, m), m) == SetBits(v, m)
  {
  }

  /** Clearing the same mask twice is the same as clearing it once. */
  lemma ClearBitsIdempotent(v: bv16, m: bv16)
    ensures ClearBits(ClearBits(v, m), m) == ClearBits(v, m)
  {
  }

  /**
   * Driving one pin high is exactly: that pin becomes 1 and no other pin
   * changes. Both directions: the word `SetBits(v, PinMask(pin))` has this
   * property, and it is the only word that has it.
   */
  lemma {:induction false} SetPinChangesOnlyThatPin(v: bv16, pin: Pin, r: bv16)
    ensures r == SetBits(v, PinMask(pin)) <==>
              Bit(r, pin) && forall p: Pin :: p != pin ==> Bit(r, p) == Bit(v, p)
  {
    SetBitsIsPinwiseUpdate(v, PinMask(pin), r);
  }

  /**
   * Driving one pin low is exactly: that pin becomes 0 and no other pin
   * changes, in both directions.
   */
  lemma {:induction false} ClearPinChangesOnlyThatPin(v: bv16, pin: Pin, r: bv16)
    ensures r == ClearBits(v, PinMask(pin)) <==>
              !Bit(r, pin) && forall p: Pin :: p != pin ==> Bit(r, p) == Bit(v, p)
  {
    ClearBitsIsPinwiseUpdate(v, PinMask(pin), r);
  }

  // ---------------------------------------------------------------------------
  // Pin tests on an input level
  // ---------------------------------------------------------------------------

  /** `(level & (1 << pin)) != 0`: the pin reads high. */
  predicate PinHigh(level: bv16, pin: Pin): (b: bool)
    ensures b == Bit(level, pin)
  {
    MaskTestAt(level, pin);
    level & PinMask(pin) != 0
  }

  /** `(level & (1 << pin)) == 0`: the pin reads low. */
  predicate PinLow(level: bv16, pin: Pin): (b: bool)
    ensures b == !Bit(level, pin)
    ensures b == !PinHigh(level, pin)
  {
    MaskTestAt(level, pin);
    level & PinMask(pin) == 0
  }

  lemma MaskTestAt(v: bv16, pin: Pin)
    ensures v & (1 << pin) != 0 <==> Bit(v, pin)
  {
  }

  // ---------------------------------------------------------------------------
  // Bytes on the wire
  // ---------------------------------------------------------------------------

  /** `v & 0xFF`: the port 0 byte, pins 0-7. */
  function LowByte(v: bv16): (b: bv8) {
    (v & 0xFF) as bv8
  }

  /** `(v >> 8) & 0xFF`: the port 1 byte, pins 8-15. */
  function HighByte(v: bv16): (b: bv8) {
    ((v >> 8) & 0xFF) as bv8
  }

  /** `hi << 8 | lo`: a word reassembled from its two bytes, low byte received first. */
  function Join(lo: bv8, hi: bv8): (r: bv16)
    ensures LowByte(r) == lo && HighByte(r) == hi
  {
    ((hi as bv16) << 8) | (lo as bv16)
  }

  /** Splitting a word into its two bytes and joining them gives the word back. */
  lemma SplitJoin(v: bv16)
    ensures Join(LowByte(v), HighByte(v)) == v
  {
  }

  /** The register-write frame: command byte, then low byte, then high byte. */
  function Frame(register: bv8, v: bv16): (f: seq<bv8>)
    ensures |f| == 3 && f[0] == register && Join(f[1], f[2]) == v
  {
    SplitJoin(v);
    [register, LowByte(v), HighByte(v)]
  }
}
