/**
 * Sample widths handled by the routing engine, and the per-width operations
 * the routines use: reading a stored sample, saturating a sum back to the
 * target width, and the width of the accumulator.
 *
 * The three C routine families (s16le, s24le, s32le) differ only in these
 * operations, so the model has one engine parameterised by `Width`.
 */
module Sample {
  import opened Ints

  /** S16: 16-bit samples in 16-bit containers. S24: 24-bit samples in the low
      bits of 32-bit containers. S32: 32-bit samples. */
  datatype Width = S16 | S24 | S32

  /** Smallest value a sample of this width can take. */
  function SampleMin(w: Width): int
  {
    match w
    case S16 => -0x8000
    case S24 => -0x80_0000
    case S32 => -0x8000_0000
  }

  /** Largest value a sample of this width can take. */
  function SampleMax(w: Width): int
  {
    match w
    case S16 => 0x7FFF
    case S24 => 0x7F_FFFF
    case S32 => 0x7FFF_FFFF
  }

  predicate InSampleRange(w: Width, x: int)
  {
    SampleMin(w) <= x <= SampleMax(w)
  }

  /** What the buffer's storage element can hold: `int16_t` for S16, `int32_t` otherwise. */
  predicate ContainerFits(w: Width, x: int)
  {
    if w == S16 then IsInt16(x) else IsInt32(x)
  }

  predicate BufferFits(w: Width, buf: seq<int>)
  {
    forall k :: 0 <= k < |buf| ==> ContainerFits(w, buf[k])
  }

  /** The accumulator: `int32_t` for S16 and S24, `int64_t` for S32. */
  predicate AccFits(w: Width, x: int)
  {
    if w == S32 then IsInt64(x) else IsInt32(x)
  }

  /**
   * Sign extension of a 32-bit container from bit 23: the result is the
   * unique 24-bit signed value with the same low 24 bits as `x`.
   */
  function SignExtendS24(x: int): (r: int)
    ensures -0x80_0000 <= r < 0x80_0000
    ensures (x - r) % 0x100_0000 == 0
    ensures -0x80_0000 <= x < 0x80_0000 ==> r == x
  {
    var low := x % 0x100_0000;
    if low >= 0x80_0000 then low - 0x100_0000 else low
  }

  /** The value a routine adds to its accumulator for one stored sample. */
  function ReadSample(w: Width, x: int): (r: int)
    requires ContainerFits(w, x)
    ensures InSampleRange(w, r)
    ensures w != S24 ==> r == x
  {
    if w == S24 then SignExtendS24(x) else x
  }

  /** `sat_int16`, `sat_int24`, `sat_int32`: clamp to the target width, never wrap. */
  function Saturate(w: Width, x: int): (r: int)
    ensures InSampleRange(w, r)
    ensures InSampleRange(w, x) ==> r == x
    ensures x > SampleMax(w) ==> r == SampleMax(w)
    ensures x < SampleMin(w) ==> r == SampleMin(w)
  {
    if x > SampleMax(w) then SampleMax(w)
    else if x < SampleMin(w) then SampleMin(w)
    else x
  }

  /** Saturation never reverses the order of two sums. */
  lemma SaturateMonotonic(w: Width, x: int, y: int)
    requires x <= y
    ensures Saturate(w, x) <= Saturate(w, y)
  {
  }

  /** Saturating twice is saturating once. */
  lemma SaturateIdempotent(w: Width, x: int)
    ensures Saturate(w, Saturate(w, x)) == Saturate(w, x)
  {
  }
}
