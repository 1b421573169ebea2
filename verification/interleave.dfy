/**
 * The write loop shared by every demux and mux routine: for each frame `i`
 * and each output channel `o`, one sample is stored at the interleaved sink
 * position `i * stride + o`, in loop order (frames outer, channels inner).
 * When `stride` is smaller than the number of channels written per frame,
 * later writes overwrite earlier ones; the model keeps that order.
 */
module Interleave {
  import opened Ints

  /** Every frame carries `n` channel values. */
  predicate Uniform(frames: seq<seq<int>>, n: nat)
  {
    forall i :: 0 <= i < |frames| ==> |frames[i]| == n
  }

  /** One past the last position the loop writes for `count` frames of `n` channels. */
  function WrittenBelow(stride: nat, count: nat, n: nat): nat
  {
    if count == 0 then 0 else At(stride, count - 1, n)
  }

  /** Replace `|vals|` consecutive samples starting at `base`: the inner channel loop of one frame. */
  function Splice(sink: seq<int>, base: nat, vals: seq<int>): (r: seq<int>)
    requires base + |vals| <= |sink|
    ensures |r| == |sink|
    ensures forall k :: 0 <= k < |vals| ==> r[base + k] == vals[k]
    ensures forall k :: 0 <= k < |sink| && (k < base || base + |vals| <= k) ==> r[k] == sink[k]
  {
    sink[..base] + vals + sink[base + |vals|..]
  }

  lemma WrittenBelowPrefix(stride: nat, count: nat, n: nat)
    requires count > 0
    ensures WrittenBelow(stride, count - 1, n) <= WrittenBelow(stride, count, n)
    ensures At(stride, count - 1, 0) + n == WrittenBelow(stride, count, n)
  {
    if count > 1 {
      MulLe(count - 2, count - 1, stride);
    }
  }

  /** The sink after the loop has written `frames` (each `n` channels wide) with the given stride. */
  function WriteFrames(sink: seq<int>, stride: nat, frames: seq<seq<int>>, n: nat): (r: seq<int>)
    requires Uniform(frames, n)
    requires WrittenBelow(stride, |frames|, n) <= |sink|
    ensures |r| == |sink|
    decreases |frames|
  {
    if |frames| == 0 then sink
    else
      var m := |frames| - 1;
      WrittenBelowPrefix(stride, |frames|, n);
      Splice(WriteFrames(sink, stride, frames[..m], n), At(stride, m, 0), frames[m])
  }

  /** One more frame is one more splice at that frame's base position. */
  lemma WriteFramesStep(sink: seq<int>, stride: nat, frames: seq<seq<int>>, n: nat)
    requires Uniform(frames, n) && |frames| > 0
    requires WrittenBelow(stride, |frames|, n) <= |sink|
    ensures Uniform(frames[..|frames| - 1], n)
    ensures WrittenBelow(stride, |frames| - 1, n) <= |sink|
    ensures At(stride, |frames| - 1, 0) + n <= |sink|
    ensures WriteFrames(sink, stride, frames, n)
         == Splice(WriteFrames(sink, stride, frames[..|frames| - 1], n), At(stride, |frames| - 1, 0), frames[|frames| - 1])
  {
    WrittenBelowPrefix(stride, |frames|, n);
  }

  /** Nothing at or after the last written position changes. */
  lemma {:induction false} WriteFramesTail(sink: seq<int>, stride: nat, frames: seq<seq<int>>, n: nat, k: nat)
    requires Uniform(frames, n)
    requires WrittenBelow(stride, |frames|, n) <= k < |sink|
    ensures WriteFrames(sink, stride, frames, n)[k] == sink[k]
    decreases |frames|
  {
    if |frames| > 0 {
      WriteFramesStep(sink, stride, frames, n);
      WrittenBelowPrefix(stride, |frames|, n);
      WriteFramesTail(sink, stride, frames[..|frames| - 1], n, k);
    }
  }

  /** The last frame written survives entirely. */
  lemma WriteFramesLast(sink: seq<int>, stride: nat, frames: seq<seq<int>>, n: nat, o: nat)
    requires Uniform(frames, n) && |frames| > 0 && o < n
    requires WrittenBelow(stride, |frames|, n) <= |sink|
    ensures At(stride, |frames| - 1, o) < |sink|
    ensures WriteFrames(sink, stride, frames, n)[At(stride, |frames| - 1, o)] == frames[|frames| - 1][o]
  {
    WriteFramesStep(sink, stride, frames, n);
  }

  /** A channel below the stride keeps its own frame's value: no later write reaches
      back into an earlier frame. */
  lemma {:induction false} WriteFramesKeeps(sink: seq<int>, stride: nat, frames: seq<seq<int>>, n: nat, i: nat, o: nat)
    requires Uniform(frames, n)
    requires WrittenBelow(stride, |frames|, n) <= |sink|
    requires i < |frames| && o < n && o < stride
    ensures At(stride, i, o) < |sink|
    ensures WriteFrames(sink, stride, frames, n)[At(stride, i, o)] == frames[i][o]
    decreases |frames|
  {
    var m := |frames| - 1;
    WriteFramesStep(sink, stride, frames, n);
    if i < m {
      AtBefore(stride, i, o, m);
      WriteFramesKeeps(sink, stride, frames[..m], n, i, o);
      assert frames[..m][i] == frames[i];
    } else {
      WriteFramesLast(sink, stride, frames, n, o);
    }
  }

  /** Positions of a frame that no channel writes (the stride is wider than the frame)
      keep their old value. */
  lemma {:induction false} WriteFramesGap(sink: seq<int>, stride: nat, frames: seq<seq<int>>, n: nat, i: nat, o: nat)
    requires Uniform(frames, n)
    requires WrittenBelow(stride, |frames|, n) <= |sink|
    requires i < |frames| && n <= o < stride && At(stride, i, o) < |sink|
    ensures WriteFrames(sink, stride, frames, n)[At(stride, i, o)] == sink[At(stride, i, o)]
    decreases |frames|
  {
    var m := |frames| - 1;
    WriteFramesStep(sink, stride, frames, n);
    if i < m {
      assert At(stride, i, o) < At(stride, m, 0) by {
        AtBefore(stride, i, o, m);
      }
      WriteFramesGap(sink, stride, frames[..m], n, i, o);
    } else if m > 0 {
      AtAfterPrevious(stride, m, n, o);
      WriteFramesTail(sink, stride, frames[..m], n, At(stride, i, o));
    }
  }

  /** Every one of `frames` frames of `stride` samples lies inside a buffer of length `len`. */
  predicate FitsFrames(len: nat, stride: nat, frames: nat)
  {
    forall i :: 0 <= i < frames ==> At(stride, i, stride) <= len
  }

  /** A buffer of `frames * stride` samples or more holds every frame. */
  lemma FitsFramesWhole(len: nat, stride: nat, frames: nat)
    requires frames * stride <= len
    ensures FitsFrames(len, stride, frames)
  {
    forall i | 0 <= i < frames
      ensures At(stride, i, stride) <= len
    {
      MulLe(i + 1, frames, stride);
    }
  }

  /** For frames exactly `stride` wide, the write loop ends at `frames * stride`. */
  lemma WrittenBelowFull(stride: nat, frames: nat, len: nat)
    requires FitsFrames(len, stride, frames)
    ensures WrittenBelow(stride, frames, stride) == frames * stride
    ensures WrittenBelow(stride, frames, stride) <= len
  {
    if frames > 0 {
      assert At(stride, frames - 1, stride) <= len;
      assert (frames - 1) * stride + stride == frames * stride;
    }
  }

  /** Storing the next value of a frame extends the spliced prefix by that value. */
  lemma SpliceStep(prev: seq<int>, out: seq<int>, base: nat, vals: seq<int>, o: nat, x: int)
    requires o < |vals| && base + |vals| <= |prev|
    requires out == Splice(prev, base, vals[..o]) && x == vals[o]
    ensures base + o < |out|
    ensures out[base + o := x] == Splice(prev, base, vals[..o + 1])
  {
    SpliceGrow(prev, base, vals, o);
  }

  /** Writing one more channel extends the spliced prefix of the current frame by one value. */
  lemma SpliceGrow(prev: seq<int>, base: nat, vals: seq<int>, o: nat)
    requires o < |vals| && base + |vals| <= |prev|
    ensures Splice(prev, base, vals[..o])[base + o := vals[o]] == Splice(prev, base, vals[..o + 1])
  {
    var a := Splice(prev, base, vals[..o])[base + o := vals[o]];
    var b := Splice(prev, base, vals[..o + 1]);
    forall k | 0 <= k < |a| ensures a[k] == b[k] {
      if base <= k < base + o + 1 {
        assert b[base + (k - base)] == vals[..o + 1][k - base];
      }
    }
  }

  /** The loop's write bound only grows with the number of frames. */
  lemma WrittenBelowMono(stride: nat, a: nat, b: nat, n: nat)
    requires a <= b
    ensures WrittenBelow(stride, a, n) <= WrittenBelow(stride, b, n)
  {
    if 0 < a {
      MulLe(a - 1, b - 1, stride);
    }
  }

  /** Closing one frame of the loop: the spliced frame is the write of one more frame. */
  lemma NextFrame(sink: seq<int>, stride: nat, n: nat, f: seq<seq<int>>, i: nat, prev: seq<int>, out: seq<int>)
    requires Uniform(f, n) && i < |f|
    requires WrittenBelow(stride, i, n) <= |sink|
    requires WrittenBelow(stride, i + 1, n) <= |sink|
    requires prev == WriteFrames(sink, stride, f[..i], n)
    requires out == Splice(prev, At(stride, i, 0), f[i][..n])
    ensures out == WriteFrames(sink, stride, f[..i + 1], n)
  {
    assert f[i][..n] == f[i];
    assert f[..i + 1][..i] == f[..i];
    WriteFramesStep(sink, stride, f[..i + 1], n);
  }
}
