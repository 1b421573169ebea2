/**
 * Demux routines (`demux_s16le/s24le/s32le`): one source stream is split into
 * one sink route. For every frame and every output channel of the route, the
 * accumulator runs over the source frame with that channel's mask, the sum is
 * saturated to the sample width, and the result is stored at the interleaved
 * position `frame * route_channels + out_ch` of the sink.
 */
module Demux {
  import opened Ints
  import opened Sample
  import opened Calc
  import opened Config
  import opened Interleave

  /**
   * What a demux call needs: the frame counter is `uint8_t`, so at most 255
   * frames end the loop; the source channel count is `uint16_t` but reaches the
   * accumulator as `uint8_t`, whose `int8_t` channel counter stops only below 128;
   * every output channel has a mask; the source holds every processed frame and
   * the sink has room for every written one.
   */
  predicate DemuxArgs(w: Width, sink: seq<int>, src: seq<int>, srcChannels: nat, frames: nat, route: StreamData)
  {
    && frames <= 255
    && IsU16(srcChannels) && U8(srcChannels) <= 127
    && IsU8(route.numChannels) && route.numChannels <= |route.mask|
    && FitsFrames(|src|, srcChannels, frames)
    && FitsFrames(|sink|, route.numChannels, frames)
    && BufferFits(w, src)
  }

  /** The accumulator's reads for frame `i` stay inside that frame. */
  lemma FrameReads(src: seq<int>, srcChannels: nat, i: nat, mask: bv8)
    requires At(srcChannels, i, srcChannels) <= |src|
    ensures ReadsInside(src, U8(srcChannels), i * srcChannels, mask)
  {
  }

  /** Output channel `o` of frame `i`: the saturated sum of the source channels its mask selects. */
  function DemuxSample(w: Width, src: seq<int>, srcChannels: nat, route: StreamData, i: nat, o: nat): (r: int)
    requires U8(srcChannels) <= 127 && o < |route.mask|
    requires At(srcChannels, i, srcChannels) <= |src|
    requires BufferFits(w, src)
    ensures InSampleRange(w, r)
    ensures InSampleRange(w, CalcSample(w, src, U8(srcChannels), i * srcChannels, route.mask[o]))
        ==> r == CalcSample(w, src, U8(srcChannels), i * srcChannels, route.mask[o])
    ensures CalcSample(w, src, U8(srcChannels), i * srcChannels, route.mask[o]) > SampleMax(w) ==> r == SampleMax(w)
    ensures CalcSample(w, src, U8(srcChannels), i * srcChannels, route.mask[o]) < SampleMin(w) ==> r == SampleMin(w)
  {
    FrameReads(src, srcChannels, i, route.mask[o]);
    Saturate(w, CalcSample(w, src, U8(srcChannels), i * srcChannels, route.mask[o]))
  }

  /** The values the routine computes, frame by frame. */
  function DemuxFrames(w: Width, src: seq<int>, srcChannels: nat, frames: nat, route: StreamData): (f: seq<seq<int>>)
    requires U8(srcChannels) <= 127 && route.numChannels <= |route.mask|
    requires FitsFrames(|src|, srcChannels, frames)
    requires BufferFits(w, src)
    ensures |f| == frames && Uniform(f, route.numChannels)
  {
    seq(frames, i requires 0 <= i < frames =>
      seq(route.numChannels, o requires 0 <= o < route.numChannels =>
        DemuxSample(w, src, srcChannels, route, i, o)))
  }

  /**
   * The sink after the routine: every (frame, output channel) pair holds its
   * saturated routed sample at `frame * route_channels + out_ch`, every written
   * sample lies in the width's range, and no position from
   * `frames * route_channels` on is touched.
   */
  function Demux(w: Width, sink: seq<int>, src: seq<int>, srcChannels: nat, frames: nat, route: StreamData): (r: seq<int>)
    requires DemuxArgs(w, sink, src, srcChannels, frames, route)
    ensures |r| == |sink|
    ensures forall i, o :: 0 <= i < frames && 0 <= o < route.numChannels ==>
      At(route.numChannels, i, o) < |r|
      && r[At(route.numChannels, i, o)] == DemuxSample(w, src, srcChannels, route, i, o)
      && InSampleRange(w, r[At(route.numChannels, i, o)])
    ensures forall k :: frames * route.numChannels <= k < |r| ==> r[k] == sink[k]
  {
    var rc := route.numChannels;
    var f := DemuxFrames(w, src, srcChannels, frames, route);
    WrittenBelowFull(rc, frames, |sink|);
    DemuxLayout(w, sink, src, srcChannels, frames, route, f);
    WriteFrames(sink, rc, f, rc)
  }

  lemma DemuxLayout(w: Width, sink: seq<int>, src: seq<int>, srcChannels: nat, frames: nat, route: StreamData, f: seq<seq<int>>)
    requires DemuxArgs(w, sink, src, srcChannels, frames, route)
    requires f == DemuxFrames(w, src, srcChannels, frames, route)
    ensures WrittenBelow(route.numChannels, frames, route.numChannels) <= |sink|
    ensures forall i, o :: 0 <= i < frames && 0 <= o < route.numChannels ==>
      At(route.numChannels, i, o) < |sink|
      && WriteFrames(sink, route.numChannels, f, route.numChannels)[At(route.numChannels, i, o)]
         == DemuxSample(w, src, srcChannels, route, i, o)
    ensures forall k :: frames * route.numChannels <= k < |sink| ==>
      WriteFrames(sink, route.numChannels, f, route.numChannels)[k] == sink[k]
  {
    var rc := route.numChannels;
    WrittenBelowFull(rc, frames, |sink|);
    forall i, o | 0 <= i < frames && 0 <= o < rc
      ensures At(rc, i, o) < |sink|
      ensures WriteFrames(sink, rc, f, rc)[At(rc, i, o)] == DemuxSample(w, src, srcChannels, route, i, o)
    {
      WriteFramesKeeps(sink, rc, f, rc, i, o);
    }
    forall k | frames * rc <= k < |sink|
      ensures WriteFrames(sink, rc, f, rc)[k] == sink[k]
    {
      WriteFramesTail(sink, rc, f, rc, k);
    }
  }

  /** One store of the routine: the accumulator loop's sum for output channel `o`, saturated. */
  method DemuxChannel(w: Width, src: seq<int>, srcChannels: nat, route: StreamData, i: nat, o: nat)
    returns (x: int)
    requires U8(srcChannels) <= 127 && o < |route.mask|
    requires At(srcChannels, i, srcChannels) <= |src|
    requires BufferFits(w, src)
    ensures x == DemuxSample(w, src, srcChannels, route, i, o)
  {
    FrameReads(src, srcChannels, i, route.mask[o]);
    var sample := CalcSampleLoop(w, src, U8(srcChannels), i * srcChannels, route.mask[o]);
    x := Saturate(w, sample);
  }

  /** One frame of the routine: every output channel of frame `i` stored in order. */
  method DemuxFrame(w: Width, sink: seq<int>, src: seq<int>, srcChannels: nat, frames: nat, route: StreamData,
                    i: nat, prev: seq<int>)
    returns (out: seq<int>)
    requires DemuxArgs(w, sink, src, srcChannels, frames, route)
    requires i < frames
    requires prev == WriteFrames(sink, route.numChannels, DemuxFrames(w, src, srcChannels, frames, route)[..i], route.numChannels)
    ensures out == WriteFrames(sink, route.numChannels, DemuxFrames(w, src, srcChannels, frames, route)[..i + 1], route.numChannels)
  {
    var rc := route.numChannels;
    ghost var f := DemuxFrames(w, src, srcChannels, frames, route);
    WrittenBelowFull(rc, frames, |sink|);
    WrittenBelowMono(rc, i + 1, frames, rc);
    WrittenBelowMono(rc, i, frames, rc);
    assert At(rc, i, rc) <= |sink|;
    out := prev;
    var outCh := 0;
    while outCh < rc
      invariant 0 <= outCh <= rc
      invariant out == Splice(prev, At(rc, i, 0), f[i][..outCh])
    {
      var x := DemuxChannel(w, src, srcChannels, route, i, outCh);
      assert f[i][outCh] == x;
      SpliceGrow(prev, At(rc, i, 0), f[i], outCh);
      assert At(rc, i, outCh) == At(rc, i, 0) + outCh;
      out := out[At(rc, i, outCh) := x];
      outCh := outCh + 1;
    }
    NextFrame(sink, rc, rc, f, i, prev, out);
  }

  /**
   * The routine as the C code runs it: frames outer, output channels inner,
   * one accumulator call and one saturated store per pair. It leaves the sink
   * exactly as `Demux` describes.
   */
  method DemuxLoop(w: Width, sink: seq<int>, src: seq<int>, srcChannels: nat, frames: nat, route: StreamData)
    returns (out: seq<int>)
    requires DemuxArgs(w, sink, src, srcChannels, frames, route)
    ensures out == Demux(w, sink, src, srcChannels, frames, route)
  {
    ghost var f := DemuxFrames(w, src, srcChannels, frames, route);
    out := sink;
    var i := 0;
    while i < frames
      invariant 0 <= i <= frames
      invariant out == WriteFrames(sink, route.numChannels, f[..i], route.numChannels)
    {
      out := DemuxFrame(w, sink, src, srcChannels, frames, route, i, out);
      i := i + 1;
    }
    assert f[..frames] == f;
  }
}
