/**
 * Fixed-width integer helpers. Dafny integers are unbounded, so every C
 * width the routing code relies on is spelled out here.
 */
module Ints {

  predicate IsU8(x: int) { 0 <= x < 0x100 }

  predicate IsU16(x: int) { 0 <= x < 0x1_0000 }

  predicate IsInt16(x: int) { -0x8000 <= x < 0x8000 }

  predicate IsInt32(x: int) { -0x8000_0000 <= x < 0x8000_0000 }

  predicate IsInt64(x: int) { -0x8000_0000_0000_0000 <= x < 0x8000_0000_0000_0000 }

  /** Implicit C conversion of a non-negative value to `uint8_t`. */
  function U8(x: nat): (r: nat)
    ensures IsU8(r)
    ensures r <= x
    ensures IsU8(x) ==> r == x
    ensures (x - r) % 0x100 == 0
  {
    x % 0x100
  }

  /** Interleaved position of channel `ch` of frame `frame` when frames are `stride` samples apart. */
  function At(stride: nat, frame: nat, ch: nat): nat
  {
    frame * stride + ch
  }

  lemma MulLe(a: nat, b: nat, c: nat)
    requires a <= b
    ensures a * c <= b * c
  {
  }

  /** A channel inside the stride of an earlier frame lies before any later frame. */
  lemma AtBefore(stride: nat, i: nat, o: nat, m: nat)
    requires i < m && o < stride
    ensures At(stride, i, o) < At(stride, m, 0)
  {
    MulLe(i + 1, m, stride);
    assert (i + 1) * stride == i * stride + stride;
  }

  /** Channel `o >= n` of frame `m` lies at or after channel `n` of frame `m - 1`. */
  lemma AtAfterPrevious(stride: nat, m: nat, n: nat, o: nat)
    requires m > 0 && n <= o
    ensures At(stride, m - 1, n) <= At(stride, m, o)
  {
    MulLe(m - 1, m, stride);
  }
}
