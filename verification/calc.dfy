/**
 * The sample accumulator (`calc_sample_s16le/s24le/s32le`): for one output
 * channel, the sum of the interleaved source samples at `offset + c` for every
 * source channel `c < numCh` whose bit is set in the 8-bit routing mask.
 */
module Calc {
  import opened Ints
  import opened Sample

  /** Channel `c` contributes under `mask` (`mask & BIT(c)`). Only the eight mask bits can select. */
  predicate Selected(mask: bv8, c: int)
  {
    0 <= c < 8 && mask & Bit(c) != 0
  }

  /** Every sample the accumulator reads lies inside the source. */
  predicate ReadsInside(src: seq<int>, numCh: nat, offset: nat, mask: bv8)
  {
    forall c :: 0 <= c < numCh && Selected(mask, c) ==> offset + c < |src|
  }

  /** Number of channels below `n` that `mask` selects. */
  function Count(mask: bv8, n: nat): (r: nat)
    ensures r <= n && r <= 8
  {
    if n == 0 then 0
    else Count(mask, n - 1) + (if Selected(mask, n - 1) then 1 else 0)
  }

  /** Sum, in channel order, of the selected samples among channels `[0, n)`. */
  function SumSelected(w: Width, src: seq<int>, offset: nat, mask: bv8, n: nat): (r: int)
    requires ReadsInside(src, n, offset, mask)
    requires BufferFits(w, src)
    ensures Count(mask, n) * SampleMin(w) <= r <= Count(mask, n) * SampleMax(w)
  {
    if n == 0 then 0
    else
      var c := Count(mask, n - 1);
      assert (c + 1) * SampleMin(w) == c * SampleMin(w) + SampleMin(w);
      assert (c + 1) * SampleMax(w) == c * SampleMax(w) + SampleMax(w);
      SumSelected(w, src, offset, mask, n - 1)
      + (if Selected(mask, n - 1) then ReadSample(w, src[offset + n - 1]) else 0)
  }

  /**
   * `calc_sample_*`: a zero mask returns 0 before touching the source;
   * otherwise the selected samples are summed. The result never leaves the
   * accumulator's range (`int32_t` for S16/S24, `int64_t` for S32), since at
   * most eight samples are added.
   */
  function CalcSample(w: Width, src: seq<int>, numCh: nat, offset: nat, mask: bv8): (r: int)
    requires numCh <= 127
    requires ReadsInside(src, numCh, offset, mask)
    requires BufferFits(w, src)
    ensures mask == 0 ==> r == 0
    ensures Count(mask, numCh) * SampleMin(w) <= r <= Count(mask, numCh) * SampleMax(w)
    ensures 8 * SampleMin(w) <= r <= 8 * SampleMax(w)
    ensures AccFits(w, r)
  {
    MulLe(Count(mask, numCh), 8, SampleMax(w));
    MulLe(Count(mask, numCh), 8, -SampleMin(w));
    if mask == 0 then 0 else SumSelected(w, src, offset, mask, numCh)
  }

  /** Bit `c` alone: `BIT(c)` for the eight channels an 8-bit mask can name. */
  function Bit(c: nat): bv8
    requires c < 8
  {
    match c
    case 0 => 0x01
    case 1 => 0x02
    case 2 => 0x04
    case 3 => 0x08
    case 4 => 0x10
    case 5 => 0x20
    case 6 => 0x40
    case _ => 0x80
  }

  lemma SelectedBit(c: nat, d: int)
    requires c < 8
    ensures Selected(Bit(c), d) <==> d == c
  {
  }

  lemma SelectedOr(m1: bv8, m2: bv8, c: int)
    ensures Selected(m1 | m2, c) <==> Selected(m1, c) || Selected(m2, c)
  {
  }

  lemma SelectedDisjoint(m1: bv8, m2: bv8, c: int)
    requires m1 & m2 == 0
    ensures !(Selected(m1, c) && Selected(m2, c))
  {
  }

  /** A mask with exactly the bits below `n`: the channels a `n`-channel source has. */
  function LowBits(n: nat): bv8
  {
    if n >= 8 then 0xFF else Bit(n) - 1
  }

  lemma SelectedAnd(m: bv8, n: nat, c: int)
    ensures Selected(m & LowBits(n), c) <==> Selected(m, c) && c < n
  {
  }

  /** Reads of the union of two disjoint masks are the reads of each. */
  lemma SumSelectedDisjoint(w: Width, src: seq<int>, offset: nat, m1: bv8, m2: bv8, n: nat)
    requires m1 & m2 == 0
    requires ReadsInside(src, n, offset, m1 | m2)
    requires BufferFits(w, src)
    ensures ReadsInside(src, n, offset, m1) && ReadsInside(src, n, offset, m2)
    ensures SumSelected(w, src, offset, m1 | m2, n)
         == SumSelected(w, src, offset, m1, n) + SumSelected(w, src, offset, m2, n)
  {
    forall c | 0 <= c < n && Selected(m1, c) ensures offset + c < |src| {
      SelectedOr(m1, m2, c);
    }
    forall c | 0 <= c < n && Selected(m2, c) ensures offset + c < |src| {
      SelectedOr(m1, m2, c);
    }
    if n > 0 {
      SumSelectedDisjoint(w, src, offset, m1, m2, n - 1);
      SelectedOr(m1, m2, n - 1);
      SelectedDisjoint(m1, m2, n - 1);
    }
  }

  /** With no bit set nothing is added, so the early return agrees with the sum. */
  lemma {:induction false} SumSelectedNone(w: Width, src: seq<int>, offset: nat, n: nat)
    requires BufferFits(w, src)
    ensures ReadsInside(src, n, offset, 0)
    ensures SumSelected(w, src, offset, 0, n) == 0
  {
    if n > 0 {
      SumSelectedNone(w, src, offset, n - 1);
    }
  }

  /** A single-bit mask picks exactly that channel, and nothing if the source has no such channel. */
  lemma {:induction false} SumSelectedBit(w: Width, src: seq<int>, offset: nat, c: nat, n: nat)
    requires c < 8
    requires ReadsInside(src, n, offset, Bit(c))
    requires BufferFits(w, src)
    ensures c < n ==> offset + c < |src|
    ensures SumSelected(w, src, offset, Bit(c), n)
         == (if c < n then ReadSample(w, src[offset + c]) else 0)
  {
    SelectedBit(c, c);
    if n > 0 {
      SumSelectedBit(w, src, offset, c, n - 1);
      SelectedBit(c, n - 1);
    }
  }

  /** Dropping mask bits keeps the reads inside. */
  lemma ReadsInsideLowBits(src: seq<int>, n: nat, offset: nat, mask: bv8, numCh: nat)
    requires ReadsInside(src, n, offset, mask)
    ensures ReadsInside(src, n, offset, mask & LowBits(numCh))
  {
    var low := mask & LowBits(numCh);
    forall c | 0 <= c < n && Selected(low, c) ensures offset + c < |src| {
      SelectedAnd(mask, numCh, c);
    }
  }

  /** Mask bits at or above the source's channel count contribute nothing. */
  lemma {:induction false} SumSelectedLowBits(w: Width, src: seq<int>, offset: nat, mask: bv8, numCh: nat, n: nat)
    requires n <= numCh
    requires ReadsInside(src, n, offset, mask)
    requires BufferFits(w, src)
    ensures ReadsInside(src, n, offset, mask & LowBits(numCh))
    ensures SumSelected(w, src, offset, mask & LowBits(numCh), n) == SumSelected(w, src, offset, mask, n)
  {
    ReadsInsideLowBits(src, n, offset, mask, numCh);
    if n > 0 {
      SumSelectedLowBits(w, src, offset, mask, numCh, n - 1);
      SelectedAnd(mask, numCh, n - 1);
    }
  }

  /** The sum depends only on the selected samples of the frame it reads. */
  lemma {:induction false} SumSelectedLocal(w: Width, s1: seq<int>, s2: seq<int>, offset: nat, mask: bv8, n: nat)
    requires ReadsInside(s1, n, offset, mask) && ReadsInside(s2, n, offset, mask)
    requires BufferFits(w, s1) && BufferFits(w, s2)
    requires forall c :: 0 <= c < n && Selected(mask, c) ==> s1[offset + c] == s2[offset + c]
    ensures SumSelected(w, s1, offset, mask, n) == SumSelected(w, s2, offset, mask, n)
  {
    if n > 0 {
      SumSelectedLocal(w, s1, s2, offset, mask, n - 1);
    }
  }

  /** A zero mask reads nothing: any source, even an empty one, gives 0. */
  lemma CalcMaskZero(w: Width, src: seq<int>, numCh: nat, offset: nat)
    requires numCh <= 127 && BufferFits(w, src)
    ensures ReadsInside([], numCh, offset, 0) && ReadsInside(src, numCh, offset, 0)
    ensures CalcSample(w, src, numCh, offset, 0) == CalcSample(w, [], numCh, offset, 0) == 0
  {
  }

  /** One channel routed alone contributes its (sign-extended) sample, if the source has it. */
  lemma CalcSampleBit(w: Width, src: seq<int>, numCh: nat, offset: nat, c: nat)
    requires c < 8 && numCh <= 127
    requires ReadsInside(src, numCh, offset, Bit(c))
    requires BufferFits(w, src)
    ensures c < numCh ==> offset + c < |src|
    ensures CalcSample(w, src, numCh, offset, Bit(c))
         == (if c < numCh then ReadSample(w, src[offset + c]) else 0)
  {
    SumSelectedBit(w, src, offset, c, numCh);
  }

  /** The accumulator is additive over disjoint masks. With `CalcSampleBit` this pins it down
      as the sum of the selected channels. */
  lemma CalcSampleDisjoint(w: Width, src: seq<int>, numCh: nat, offset: nat, m1: bv8, m2: bv8)
    requires m1 & m2 == 0 && numCh <= 127
    requires ReadsInside(src, numCh, offset, m1 | m2)
    requires BufferFits(w, src)
    ensures ReadsInside(src, numCh, offset, m1) && ReadsInside(src, numCh, offset, m2)
    ensures CalcSample(w, src, numCh, offset, m1 | m2)
         == CalcSample(w, src, numCh, offset, m1) + CalcSample(w, src, numCh, offset, m2)
  {
    SumSelectedDisjoint(w, src, offset, m1, m2, numCh);
    SumSelectedNone(w, src, offset, numCh);
  }

  /** Bits naming channels the source does not have are ignored. */
  lemma CalcSampleLowBits(w: Width, src: seq<int>, numCh: nat, offset: nat, mask: bv8)
    requires numCh <= 127
    requires ReadsInside(src, numCh, offset, mask)
    requires BufferFits(w, src)
    ensures ReadsInside(src, numCh, offset, mask & LowBits(numCh))
    ensures CalcSample(w, src, numCh, offset, mask & LowBits(numCh)) == CalcSample(w, src, numCh, offset, mask)
  {
    SumSelectedLowBits(w, src, offset, mask, numCh, numCh);
    SumSelectedNone(w, src, offset, numCh);
  }

  /** Reads stay inside `[offset, offset + numCh)`: sources that agree on the selected
      samples of that window give the same result. */
  lemma CalcSampleLocal(w: Width, s1: seq<int>, s2: seq<int>, numCh: nat, offset: nat, mask: bv8)
    requires numCh <= 127
    requires ReadsInside(s1, numCh, offset, mask) && ReadsInside(s2, numCh, offset, mask)
    requires BufferFits(w, s1) && BufferFits(w, s2)
    requires forall c :: 0 <= c < numCh && Selected(mask, c) ==> s1[offset + c] == s2[offset + c]
    ensures CalcSample(w, s1, numCh, offset, mask) == CalcSample(w, s2, numCh, offset, mask)
  {
    SumSelectedLocal(w, s1, s2, offset, mask, numCh);
  }

  /** Every partial sum of the accumulator loop fits the accumulator. */
  lemma SumSelectedFits(w: Width, src: seq<int>, offset: nat, mask: bv8, n: nat)
    requires ReadsInside(src, n, offset, mask)
    requires BufferFits(w, src)
    ensures AccFits(w, SumSelected(w, src, offset, mask, n))
  {
    MulLe(Count(mask, n), 8, SampleMax(w));
    MulLe(Count(mask, n), 8, -SampleMin(w));
  }

  /**
   * The C loop: an early return for a zero mask, then one pass over the
   * source channels adding each selected sample. The running sum stays inside
   * the accumulator's range at every step, so the C addition never overflows.
   */
  method CalcSampleLoop(w: Width, src: seq<int>, numCh: nat, offset: nat, mask: bv8) returns (sample: int)
    requires numCh <= 127
    requires ReadsInside(src, numCh, offset, mask)
    requires BufferFits(w, src)
    ensures sample == CalcSample(w, src, numCh, offset, mask)
  {
    if mask == 0 {
      return 0;
    }
    sample := 0;
    var inCh := 0;
    while inCh < numCh
      invariant 0 <= inCh <= numCh
      invariant sample == SumSelected(w, src, offset, mask, inCh)
      invariant AccFits(w, sample)
    {
      if Selected(mask, inCh) {
        sample := sample + ReadSample(w, src[offset + inCh]);
      }
      inCh := inCh + 1;
      SumSelectedFits(w, src, offset, mask, inCh);
    }
  }
}
