/** Unsigned 32-bit arithmetic and the fixed-point conversions the clock uses.
    Every `uint32_t` operation of the time source wraps modulo 2^32; the two
    conversions below turn hundredths of a second and elapsed microseconds into
    fraction units, at the scale the code actually uses (0xFFFFFF per second). */
module FixedPoint {

  const TWO_32: int := 0x1_0000_0000
  const MAX_UINT32: int := 0xFFFF_FFFF

  type uint32 = x: int | 0 <= x < 0x1_0000_0000
  type uint8 = x: int | 0 <= x < 0x100

  const MICROS_PER_SECOND: int := 1_000_000

  /** The number the code divides to get fraction units per millisecond and per
      microsecond: 0xFFFFFF, that is 2^24 - 1, not the 2^32 of a full NTP fraction. */
  const FRACTION_SCALE: int := 0xFF_FFFF
  /** 0xFFFFFF / 1000 in integer division: 16777 units per millisecond. */
  const FRACTION_PER_MILLI: int := FRACTION_SCALE / 1000
  /** 0xFFFFFF / 1000000 in integer division: 16 units per microsecond. */
  const FRACTION_PER_MICRO: int := FRACTION_SCALE / 1_000_000

  /** `a + b` on `uint32_t`. The sum wraps exactly when it does not fit, and a
      wrapped sum is the only kind that comes out below `a`: this is the
      overflow test the extrapolation relies on. */
  function Add32(a: uint32, b: uint32): (r: uint32)
    ensures r == a + b || r == a + b - TWO_32
    ensures r < a <==> a + b >= TWO_32
  {
    if a + b < TWO_32 then a + b else a + b - TWO_32
  }

  /** `a - b` on `uint32_t`: the one 32-bit value that, added to `b` with
      wrap-around, gives back `a`. Without a wrap it is the plain difference. */
  function Sub32(a: uint32, b: uint32): (r: uint32)
    ensures Add32(b, r) == a
    ensures b <= a ==> r == a - b
  {
    if b <= a then a - b else a - b + TWO_32
  }

  /** Wrap-around safety: a counter that has moved on by `elapsed` ticks from
      `last`, wrapping past zero or not, yields exactly `elapsed` back. */
  lemma ElapsedSurvivesWrap(last: uint32, elapsed: uint32)
    ensures Sub32(Add32(last, elapsed), last) == elapsed
  {
  }

  /** Hundredths of a second from a decoded sentence, as fraction units:
      `(hundredths * 10) * (0xFFFFFF / 1000)`. The product is computed in a
      signed 32-bit long and never overflows it for any byte; it stays below
      the nominal one-second scale exactly for hundredths up to 100, and it
      never exceeds the untruncated value `hundredths * 0xFFFFFF / 100`. */
  function HundredthsToFraction(hundredths: uint8): (r: uint32)
    ensures r < 0x8000_0000
    ensures r < FRACTION_SCALE <==> hundredths <= 100
    ensures 100 * r <= hundredths * FRACTION_SCALE
    ensures hundredths == 0 <==> r == 0
  {
    (hundredths * 10) * FRACTION_PER_MILLI
  }

  /** The sub-second part of an elapsed microsecond count, as fraction units:
      `(elapsed % 1000000) * (0xFFFFFF / 1000000)`. It is always below
      16,000,000 and so below the nominal one-second scale, and it never
      exceeds the untruncated value `(elapsed % 1000000) * 0xFFFFFF / 1000000`. */
  function ElapsedToFraction(elapsed: uint32): (r: uint32)
    ensures r < 16_000_000
    ensures r < FRACTION_SCALE
    ensures MICROS_PER_SECOND * r <= (elapsed % MICROS_PER_SECOND) * FRACTION_SCALE
    ensures r % FRACTION_PER_MICRO == 0
  {
    var micros := elapsed % MICROS_PER_SECOND;
    assert FRACTION_PER_MICRO == 16;
    assert (micros * 16) % 16 == 0;
    micros * FRACTION_PER_MICRO
  }
}
