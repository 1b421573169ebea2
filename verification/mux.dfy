/**
 * Mux routines (`mux_s16le/s24le/s32le`): up to `MuxMaxStreams` source
 * streams are combined into one sink. For every frame and every sink channel,
 * each non-null source slot adds the accumulator over its own frame, using its
 * own channel count and its own mask for that sink channel; the full sum is
 * saturated once and stored once.
 *
 * The store position is `frame * data[0].num_channels + out_ch`: the frame
 * stride is the channel count of stream slot 0, not the sink's. `Mux` keeps
 * that; `MuxCorrected` uses the sink's channel count.
 */
module Mux {
  import opened Options
  import opened Ints
  import opened Sample
  import opened Calc
  import opened Config
  import opened Interleave

  /** One active slot: its channel count fits the accumulator's `int8_t` counter,
      it has a mask for every sink channel, and it holds every processed frame. */
  predicate SlotArgs(w: Width, src: seq<int>, route: StreamData, sinkChannels: nat, frames: nat)
  {
    && IsU8(route.numChannels) && route.numChannels <= 127
    && sinkChannels <= |route.mask|
    && FitsFrames(|src|, route.numChannels, frames)
    && BufferFits(w, src)
  }

  /**
   * What a mux call needs on the source side: one pointer per stream slot, a
   * route for every slot (slot 0's is always read for the stride), at most 255
   * frames and 255 sink channels for the `uint8_t` loop counters to stop, and
   * every non-null slot ready.
   */
  predicate MuxInputs(w: Width, sources: seq<Option<seq<int>>>, routes: seq<StreamData>, sinkChannels: nat, frames: nat)
  {
    && |sources| == MuxMaxStreams && 1 <= |routes|
    && frames <= 255 && sinkChannels <= 255
    && forall j :: 0 <= j < |sources| && sources[j].Some? ==>
         j < |routes| && SlotArgs(w, sources[j].value, routes[j], sinkChannels, frames)
  }

  /** What slot `j` adds to sink channel `o` of frame `i`; a null slot adds nothing. */
  function Contribution(w: Width, sources: seq<Option<seq<int>>>, routes: seq<StreamData>,
                        sinkChannels: nat, frames: nat, i: nat, o: nat, j: nat): (r: int)
    requires MuxInputs(w, sources, routes, sinkChannels, frames)
    requires i < frames && o < sinkChannels && j < |sources|
    ensures sources[j].None? ==> r == 0
    ensures 8 * SampleMin(w) <= r <= 8 * SampleMax(w)
  {
    match sources[j]
    case None => 0
    case Some(src) =>
      var rc := routes[j].numChannels;
      assert At(rc, i, rc) <= |src|;
      CalcSample(w, src, rc, i * rc, routes[j].mask[o])
  }

  /** Bounds on the running sum after `n` slots: eight samples per slot at most. */
  function SumCeiling(w: Width, n: nat): int
  {
    if n == 0 then 0 else SumCeiling(w, n - 1) + 8 * SampleMax(w)
  }

  function SumFloor(w: Width, n: nat): int
  {
    if n == 0 then 0 else SumFloor(w, n - 1) + 8 * SampleMin(w)
  }

  /** The running sum over slots `[0, n)`, in slot order. */
  function MuxSum(w: Width, sources: seq<Option<seq<int>>>, routes: seq<StreamData>,
                  sinkChannels: nat, frames: nat, i: nat, o: nat, n: nat): (r: int)
    requires MuxInputs(w, sources, routes, sinkChannels, frames)
    requires i < frames && o < sinkChannels && n <= |sources|
    ensures SumFloor(w, n) <= r <= SumCeiling(w, n)
  {
    if n == 0 then 0
    else MuxSum(w, sources, routes, sinkChannels, frames, i, o, n - 1)
         + Contribution(w, sources, routes, sinkChannels, frames, i, o, n - 1)
  }

  /** With at most `MuxMaxStreams` slots the running sum never leaves the accumulator. */
  lemma SumLimitFits(w: Width, n: nat, x: int)
    requires n <= MuxMaxStreams
    requires SumFloor(w, n) <= x <= SumCeiling(w, n)
    ensures AccFits(w, x)
  {
    assert SumFloor(w, 1) == 8 * SampleMin(w) && SumCeiling(w, 1) == 8 * SampleMax(w);
    assert SumFloor(w, 2) == 16 * SampleMin(w) && SumCeiling(w, 2) == 16 * SampleMax(w);
    assert SumFloor(w, 3) == 24 * SampleMin(w) && SumCeiling(w, 3) == 24 * SampleMax(w);
    assert SumFloor(w, 4) == 32 * SampleMin(w) && SumCeiling(w, 4) == 32 * SampleMax(w);
  }

  /**
   * The stored value for sink channel `o` of frame `i`: the whole sum, saturated
   * once. The result is in range, and a sum that is in range comes out exactly,
   * however far the partial sums strayed.
   */
  function MuxSample(w: Width, sources: seq<Option<seq<int>>>, routes: seq<StreamData>,
                     sinkChannels: nat, frames: nat, i: nat, o: nat): (r: int)
    requires MuxInputs(w, sources, routes, sinkChannels, frames)
    requires i < frames && o < sinkChannels
    ensures InSampleRange(w, r)
    ensures AccFits(w, MuxSum(w, sources, routes, sinkChannels, frames, i, o, MuxMaxStreams))
    ensures InSampleRange(w, MuxSum(w, sources, routes, sinkChannels, frames, i, o, MuxMaxStreams))
        ==> r == MuxSum(w, sources, routes, sinkChannels, frames, i, o, MuxMaxStreams)
    ensures MuxSum(w, sources, routes, sinkChannels, frames, i, o, MuxMaxStreams) > SampleMax(w) ==> r == SampleMax(w)
    ensures MuxSum(w, sources, routes, sinkChannels, frames, i, o, MuxMaxStreams) < SampleMin(w) ==> r == SampleMin(w)
  {
    var total := MuxSum(w, sources, routes, sinkChannels, frames, i, o, MuxMaxStreams);
    SumLimitFits(w, MuxMaxStreams, total);
    Saturate(w, total)
  }

  /** The values the routine computes, frame by frame, one per sink channel. */
  function MuxFrames(w: Width, sources: seq<Option<seq<int>>>, routes: seq<StreamData>,
                     sinkChannels: nat, frames: nat): (f: seq<seq<int>>)
    requires MuxInputs(w, sources, routes, sinkChannels, frames)
    ensures |f| == frames && Uniform(f, sinkChannels)
    ensures forall i, o :: 0 <= i < frames && 0 <= o < sinkChannels ==>
      f[i][o] == MuxSample(w, sources, routes, sinkChannels, frames, i, o)
  {
    seq(frames, i requires 0 <= i < frames =>
      seq(sinkChannels, o requires 0 <= o < sinkChannels =>
        MuxSample(w, sources, routes, sinkChannels, frames, i, o)))
  }

  /** The frame stride the routines use for the sink: stream slot 0's channel count. */
  function Stride(routes: seq<StreamData>): nat
    requires 1 <= |routes|
  {
    routes[0].numChannels
  }

  /** The sink has room for every store the routines make at stride `Stride(routes)`. */
  predicate MuxArgs(w: Width, sink: seq<int>, sources: seq<Option<seq<int>>>, routes: seq<StreamData>,
                    sinkChannels: nat, frames: nat)
  {
    && MuxInputs(w, sources, routes, sinkChannels, frames)
    && (frames == 0 || At(Stride(routes), frames - 1, sinkChannels) <= |sink|)
  }

  /**
   * The sink after the routine as written. Frames are stored in order with
   * frame `i`, sink channel `o` at `i * Stride(routes) + o`; a later frame
   * overwrites an earlier one where those positions overlap. So the last frame
   * is stored whole; every frame is stored whole when the stride is at least
   * the sink's channel count; positions of a frame beyond the sink's channel
   * count keep their old value; nothing past the last store changes.
   */
  function Mux(w: Width, sink: seq<int>, sources: seq<Option<seq<int>>>, routes: seq<StreamData>,
               sinkChannels: nat, frames: nat): (r: seq<int>)
    requires MuxArgs(w, sink, sources, routes, sinkChannels, frames)
    ensures |r| == |sink|
    ensures forall i, o :: 0 <= i && i + 1 == frames && 0 <= o < sinkChannels ==>
      At(Stride(routes), i, o) < |r|
      && r[At(Stride(routes), i, o)] == MuxSample(w, sources, routes, sinkChannels, frames, i, o)
    ensures forall i, o :: 0 <= i < frames && 0 <= o < sinkChannels && o < Stride(routes) ==>
      At(Stride(routes), i, o) < |r|
      && r[At(Stride(routes), i, o)] == MuxSample(w, sources, routes, sinkChannels, frames, i, o)
    ensures forall i, o :: 0 <= i < frames && sinkChannels <= o < Stride(routes) && At(Stride(routes), i, o) < |r| ==>
      r[At(Stride(routes), i, o)] == sink[At(Stride(routes), i, o)]
    ensures forall k :: WrittenBelow(Stride(routes), frames, sinkChannels) <= k < |r| ==> r[k] == sink[k]
  {
    var f := MuxFrames(w, sources, routes, sinkChannels, frames);
    MuxLayout(w, sink, sources, routes, sinkChannels, frames, f);
    WriteFrames(sink, Stride(routes), f, sinkChannels)
  }

  lemma MuxLayout(w: Width, sink: seq<int>, sources: seq<Option<seq<int>>>, routes: seq<StreamData>,
                  sinkChannels: nat, frames: nat, f: seq<seq<int>>)
    requires MuxArgs(w, sink, sources, routes, sinkChannels, frames)
    requires f == MuxFrames(w, sources, routes, sinkChannels, frames)
    ensures forall i, o :: 0 <= i && i + 1 == frames && 0 <= o < sinkChannels ==>
      At(Stride(routes), i, o) < |sink|
      && WriteFrames(sink, Stride(routes), f, sinkChannels)[At(Stride(routes), i, o)]
         == MuxSample(w, sources, routes, sinkChannels, frames, i, o)
    ensures forall i, o :: 0 <= i < frames && 0 <= o < sinkChannels && o < Stride(routes) ==>
      At(Stride(routes), i, o) < |sink|
      && WriteFrames(sink, Stride(routes), f, sinkChannels)[At(Stride(routes), i, o)]
         == MuxSample(w, sources, routes, sinkChannels, frames, i, o)
    ensures forall i, o :: 0 <= i < frames && sinkChannels <= o < Stride(routes) && At(Stride(routes), i, o) < |sink| ==>
      WriteFrames(sink, Stride(routes), f, sinkChannels)[At(Stride(routes), i, o)] == sink[At(Stride(routes), i, o)]
    ensures forall k :: WrittenBelow(Stride(routes), frames, sinkChannels) <= k < |sink| ==>
      WriteFrames(sink, Stride(routes), f, sinkChannels)[k] == sink[k]
  {
    var d := Stride(routes);
    forall i, o | 0 <= i && i + 1 == frames && 0 <= o < sinkChannels
      ensures At(d, i, o) < |sink|
      ensures WriteFrames(sink, d, f, sinkChannels)[At(d, i, o)] == MuxSample(w, sources, routes, sinkChannels, frames, i, o)
    {
      WriteFramesLast(sink, d, f, sinkChannels, o);
    }
    forall i, o | 0 <= i < frames && 0 <= o < sinkChannels && o < d
      ensures At(d, i, o) < |sink|
      ensures WriteFrames(sink, d, f, sinkChannels)[At(d, i, o)] == MuxSample(w, sources, routes, sinkChannels, frames, i, o)
    {
      WriteFramesKeeps(sink, d, f, sinkChannels, i, o);
    }
    forall i, o | 0 <= i < frames && sinkChannels <= o < d && At(d, i, o) < |sink|
      ensures WriteFrames(sink, d, f, sinkChannels)[At(d, i, o)] == sink[At(d, i, o)]
    {
      WriteFramesGap(sink, d, f, sinkChannels, i, o);
    }
    forall k | WrittenBelow(d, frames, sinkChannels) <= k < |sink|
      ensures WriteFrames(sink, d, f, sinkChannels)[k] == sink[k]
    {
      WriteFramesTail(sink, d, f, sinkChannels, k);
    }
  }

  /**
   * The sink as the routine evidently means it: frames interleaved at the
   * sink's own channel count, so every (frame, sink channel) pair holds its
   * saturated mixed sample and nothing from `frames * sink_channels` on changes.
   */
  function MuxCorrected(w: Width, sink: seq<int>, sources: seq<Option<seq<int>>>, routes: seq<StreamData>,
                        sinkChannels: nat, frames: nat): (r: seq<int>)
    requires MuxInputs(w, sources, routes, sinkChannels, frames)
    requires FitsFrames(|sink|, sinkChannels, frames)
    ensures |r| == |sink|
    ensures forall i, o :: 0 <= i < frames && 0 <= o < sinkChannels ==>
      At(sinkChannels, i, o) < |r|
      && r[At(sinkChannels, i, o)] == MuxSample(w, sources, routes, sinkChannels, frames, i, o)
      && InSampleRange(w, r[At(sinkChannels, i, o)])
    ensures forall k :: frames * sinkChannels <= k < |r| ==> r[k] == sink[k]
  {
    var f := MuxFrames(w, sources, routes, sinkChannels, frames);
    WrittenBelowFull(sinkChannels, frames, |sink|);
    MuxCorrectedLayout(w, sink, sources, routes, sinkChannels, frames, f);
    WriteFrames(sink, sinkChannels, f, sinkChannels)
  }

  lemma MuxCorrectedLayout(w: Width, sink: seq<int>, sources: seq<Option<seq<int>>>, routes: seq<StreamData>,
                           sinkChannels: nat, frames: nat, f: seq<seq<int>>)
    requires MuxInputs(w, sources, routes, sinkChannels, frames)
    requires FitsFrames(|sink|, sinkChannels, frames)
    requires f == MuxFrames(w, sources, routes, sinkChannels, frames)
    ensures WrittenBelow(sinkChannels, frames, sinkChannels) <= |sink|
    ensures forall i, o :: 0 <= i < frames && 0 <= o < sinkChannels ==>
      At(sinkChannels, i, o) < |sink|
      && WriteFrames(sink, sinkChannels, f, sinkChannels)[At(sinkChannels, i, o)]
         == MuxSample(w, sources, routes, sinkChannels, frames, i, o)
    ensures forall k :: frames * sinkChannels <= k < |sink| ==>
      WriteFrames(sink, sinkChannels, f, sinkChannels)[k] == sink[k]
  {
    var n := sinkChannels;
    WrittenBelowFull(n, frames, |sink|);
    forall i, o | 0 <= i < frames && 0 <= o < n
      ensures At(n, i, o) < |sink|
      ensures WriteFrames(sink, n, f, n)[At(n, i, o)] == MuxSample(w, sources, routes, sinkChannels, frames, i, o)
    {
      WriteFramesKeeps(sink, n, f, n, i, o);
    }
    forall k | frames * n <= k < |sink|
      ensures WriteFrames(sink, n, f, n)[k] == sink[k]
    {
      WriteFramesTail(sink, n, f, n, k);
    }
  }

  /** When stream slot 0 has as many channels as the sink, the routine as written is the intended one. */
  lemma MuxAgreesWhenStrideMatches(w: Width, sink: seq<int>, sources: seq<Option<seq<int>>>, routes: seq<StreamData>,
                                   sinkChannels: nat, frames: nat)
    requires MuxInputs(w, sources, routes, sinkChannels, frames)
    requires FitsFrames(|sink|, sinkChannels, frames)
    requires Stride(routes) == sinkChannels
    ensures MuxArgs(w, sink, sources, routes, sinkChannels, frames)
    ensures Mux(w, sink, sources, routes, sinkChannels, frames)
         == MuxCorrected(w, sink, sources, routes, sinkChannels, frames)
  {
    WrittenBelowFull(sinkChannels, frames, |sink|);
  }

  /** One accumulator call of the routine, for a live slot `j`. */
  method SlotChannel(w: Width, sources: seq<Option<seq<int>>>, routes: seq<StreamData>,
                     sinkChannels: nat, frames: nat, i: nat, o: nat, j: nat)
    returns (c: int)
    requires MuxInputs(w, sources, routes, sinkChannels, frames)
    requires i < frames && o < sinkChannels && j < |sources| && sources[j].Some?
    ensures c == Contribution(w, sources, routes, sinkChannels, frames, i, o, j)
  {
    var src := sources[j].value;
    var rc := routes[j].numChannels;
    assert At(rc, i, rc) <= |src|;
    c := CalcSampleLoop(w, src, rc, i * rc, routes[j].mask[o]);
  }

  /** One pass of the slot loop: a null slot is skipped, a live one adds its accumulator call. */
  method AddSlot(w: Width, sources: seq<Option<seq<int>>>, routes: seq<StreamData>,
                 sinkChannels: nat, frames: nat, i: nat, o: nat, j: nat, sample: int)
    returns (sample': int)
    requires MuxInputs(w, sources, routes, sinkChannels, frames)
    requires i < frames && o < sinkChannels && j < MuxMaxStreams
    requires sample == MuxSum(w, sources, routes, sinkChannels, frames, i, o, j)
    ensures sample' == MuxSum(w, sources, routes, sinkChannels, frames, i, o, j + 1)
    ensures AccFits(w, sample')
  {
    sample' := sample;
    if sources[j].Some? {
      var c := SlotChannel(w, sources, routes, sinkChannels, frames, i, o, j);
      sample' := sample + c;
    }
    SumLimitFits(w, j + 1, sample');
  }

  /**
   * One store of the routine: the running sum over the four slots, skipping
   * null ones, saturated once. The running sum never overflows the accumulator.
   */
  method MuxChannel(w: Width, sources: seq<Option<seq<int>>>, routes: seq<StreamData>,
                    sinkChannels: nat, frames: nat, i: nat, o: nat)
    returns (x: int)
    requires MuxInputs(w, sources, routes, sinkChannels, frames)
    requires i < frames && o < sinkChannels
    ensures x == MuxSample(w, sources, routes, sinkChannels, frames, i, o)
  {
    var sample := 0;
    var j := 0;
    while j < MuxMaxStreams
      invariant 0 <= j <= MuxMaxStreams
      invariant sample == MuxSum(w, sources, routes, sinkChannels, frames, i, o, j)
      invariant AccFits(w, sample)
    {
      sample := AddSlot(w, sources, routes, sinkChannels, frames, i, o, j, sample);
      j := j + 1;
    }
    x := Saturate(w, sample);
  }

  /** One frame of the routine: every sink channel of frame `i` stored in order at stride `Stride(routes)`. */
  method MuxFrame(w: Width, sink: seq<int>, sources: seq<Option<seq<int>>>, routes: seq<StreamData>,
                  sinkChannels: nat, frames: nat, i: nat, ghost f: seq<seq<int>>, prev: seq<int>)
    returns (out: seq<int>)
    requires MuxInputs(w, sources, routes, sinkChannels, frames)
    requires f == MuxFrames(w, sources, routes, sinkChannels, frames) && i < frames
    requires WrittenBelow(Stride(routes), i, sinkChannels) <= WrittenBelow(Stride(routes), i + 1, sinkChannels) <= |sink|
    requires prev == WriteFrames(sink, Stride(routes), f[..i], sinkChannels)
    ensures out == WriteFrames(sink, Stride(routes), f[..i + 1], sinkChannels)
  {
    var d := routes[0].numChannels;
    WrittenBelowPrefix(d, i + 1, sinkChannels);
    var base := i * d;
    assert base == At(d, i, 0);
    out := prev;
    var outCh := 0;
    while outCh < sinkChannels
      invariant 0 <= outCh <= sinkChannels
      invariant out == Splice(prev, base, f[i][..outCh])
    {
      var x := MuxChannel(w, sources, routes, sinkChannels, frames, i, outCh);
      SpliceStep(prev, out, base, f[i], outCh, x);
      out := out[base + outCh := x];
      outCh := outCh + 1;
    }
    NextFrame(sink, d, sinkChannels, f, i, prev, out);
  }

  /**
   * The routine as the C code runs it: frames outer, sink channels middle,
   * stream slots inner, one store per (frame, sink channel) at
   * `frame * data[0].num_channels + out_ch`. It leaves the sink exactly as
   * `Mux` describes.
   */
  method MuxLoop(w: Width, sink: seq<int>, sources: seq<Option<seq<int>>>, routes: seq<StreamData>,
                 sinkChannels: nat, frames: nat)
    returns (out: seq<int>)
    requires MuxArgs(w, sink, sources, routes, sinkChannels, frames)
    ensures out == Mux(w, sink, sources, routes, sinkChannels, frames)
  {
    ghost var f := MuxFrames(w, sources, routes, sinkChannels, frames);
    out := sink;
    var i := 0;
    while i < frames
      invariant 0 <= i <= frames
      invariant out == WriteFrames(sink, Stride(routes), f[..i], sinkChannels)
    {
      WrittenBelowMono(Stride(routes), i, i + 1, sinkChannels);
      WrittenBelowMono(Stride(routes), i + 1, frames, sinkChannels);
      out := MuxFrame(w, sink, sources, routes, sinkChannels, frames, i, f, out);
      i := i + 1;
    }
    assert f[..frames] == f;
  }

  /** With every slot null, each sample the routine stores is zero. */
  lemma {:induction false} MuxSumAllNull(w: Width, sources: seq<Option<seq<int>>>, routes: seq<StreamData>,
                                         sinkChannels: nat, frames: nat, i: nat, o: nat, n: nat)
    requires MuxInputs(w, sources, routes, sinkChannels, frames)
    requires i < frames && o < sinkChannels && n <= |sources|
    requires forall j :: 0 <= j < n ==> sources[j].None?
    ensures MuxSum(w, sources, routes, sinkChannels, frames, i, o, n) == 0
  {
    if n > 0 {
      MuxSumAllNull(w, sources, routes, sinkChannels, frames, i, o, n - 1);
    }
  }

  /** A null slot is the same as a slot whose masks route nothing: its absence changes no sum. */
  lemma {:induction false} MuxSumSingle(w: Width, sources: seq<Option<seq<int>>>, routes: seq<StreamData>,
                                        sinkChannels: nat, frames: nat, i: nat, o: nat, n: nat, k: nat)
    requires MuxInputs(w, sources, routes, sinkChannels, frames)
    requires i < frames && o < sinkChannels && n <= |sources| && k < n
    requires forall j :: 0 <= j < n && j != k ==> sources[j].None?
    ensures MuxSum(w, sources, routes, sinkChannels, frames, i, o, n)
         == Contribution(w, sources, routes, sinkChannels, frames, i, o, k)
  {
    if n - 1 == k {
      MuxSumAllNull(w, sources, routes, sinkChannels, frames, i, o, n - 1);
    } else {
      MuxSumSingle(w, sources, routes, sinkChannels, frames, i, o, n - 1, k);
    }
  }

  /**
   * A single live slot whose masks route its channel `c` to sink channel `o`
   * alone passes that channel's sample through unchanged.
   */
  lemma MuxPassThrough(w: Width, sources: seq<Option<seq<int>>>, routes: seq<StreamData>,
                       sinkChannels: nat, frames: nat, i: nat, o: nat, k: nat, c: nat)
    requires MuxInputs(w, sources, routes, sinkChannels, frames)
    requires i < frames && o < sinkChannels && k < |sources| && sources[k].Some?
    requires forall j :: 0 <= j < |sources| && j != k ==> sources[j].None?
    requires c < 8 && c < routes[k].numChannels && routes[k].mask[o] == Bit(c)
    ensures i * routes[k].numChannels + c < |sources[k].value|
    ensures MuxSample(w, sources, routes, sinkChannels, frames, i, o)
         == ReadSample(w, sources[k].value[i * routes[k].numChannels + c])
  {
    var src := sources[k].value;
    var rc := routes[k].numChannels;
    assert At(rc, i, rc) <= |src|;
    MuxSumSingle(w, sources, routes, sinkChannels, frames, i, o, MuxMaxStreams, k);
    CalcSampleBit(w, src, rc, i * rc, c);
  }

  /** The inputs of the stride finding: a one-channel stream `[10, 20]` in slot 0 and three null slots. */
  const FindingSources: seq<Option<seq<int>>> := [Some([10, 20]), None, None, None]

  /** Slot 0's route: one channel, routed to sink channels 0 and 1. */
  const FindingRoutes: seq<StreamData> := [StreamData(0, 1, [1, 1, 0, 0])]

  lemma FindingArgs()
    ensures MuxArgs(S16, [0, 0, 0, 0], FindingSources, FindingRoutes, 2, 2)
    ensures FitsFrames(4, 2, 2)
    ensures WrittenBelow(1, 2, 2) == 3
  {
    FitsFramesWhole(4, 2, 2);
    FitsFramesWhole(2, 1, 2);
    assert MuxInputs(S16, FindingSources, FindingRoutes, 2, 2);
  }

  /** Both sink channels of frame `i` should hold the stream's sample `i`. */
  lemma FindingSample(i: nat, o: nat)
    requires i < 2 && o < 2
    requires MuxInputs(S16, FindingSources, FindingRoutes, 2, 2)
    ensures MuxSample(S16, FindingSources, FindingRoutes, 2, 2, i, o) == [10, 20][i]
  {
    assert Bit(0) == 1;
    MuxPassThrough(S16, FindingSources, FindingRoutes, 2, 2, i, o, 0, 0);
  }

  /**
   * A one-channel stream in slot 0 routed to both channels of a two-channel
   * sink, over two frames. Each frame should be stored as a pair of equal
   * samples; the routine as written stores frame 1 at stride 1, over the second
   * half of frame 0, and never reaches the last sink position.
   */
  lemma MuxStrideOverwrites()
    ensures MuxArgs(S16, [0, 0, 0, 0], FindingSources, FindingRoutes, 2, 2)
    ensures Mux(S16, [0, 0, 0, 0], FindingSources, FindingRoutes, 2, 2) == [10, 20, 20, 0]
  {
    FindingArgs();
    FindingSample(0, 0);
    FindingSample(1, 0);
    FindingSample(1, 1);
    var r := Mux(S16, [0, 0, 0, 0], FindingSources, FindingRoutes, 2, 2);
    assert At(1, 0, 0) == 0 && At(1, 1, 0) == 1 && At(1, 1, 1) == 2;
    assert r[0] == 10 && r[1] == 20 && r[2] == 20 && r[3] == 0;
  }

  /** The corrected routine stores sample `i` of the stream at both positions of frame `i`. */
  lemma CorrectedFindingAt(i: nat, o: nat)
    requires i < 2 && o < 2
    requires MuxInputs(S16, FindingSources, FindingRoutes, 2, 2) && FitsFrames(4, 2, 2)
    ensures MuxCorrected(S16, [0, 0, 0, 0], FindingSources, FindingRoutes, 2, 2)[2 * i + o] == [10, 20][i]
  {
    FindingSample(i, o);
    assert At(2, i, o) == 2 * i + o;
  }

  /** A four-element sequence is determined by its elements. */
  lemma FourElements(s: seq<int>, a: int, b: int, c: int, d: int)
    requires |s| == 4 && s[0] == a && s[1] == b && s[2] == c && s[3] == d
    ensures s == [a, b, c, d]
  {
  }

  /** The corrected routine stores both frames whole: `[10, 10, 20, 20]`. */
  lemma MuxCorrectedInterleaves()
    ensures MuxInputs(S16, FindingSources, FindingRoutes, 2, 2) && FitsFrames(4, 2, 2)
    ensures MuxCorrected(S16, [0, 0, 0, 0], FindingSources, FindingRoutes, 2, 2) == [10, 10, 20, 20]
  {
    FindingArgs();
    CorrectedFindingAt(0, 0);
    CorrectedFindingAt(0, 1);
    CorrectedFindingAt(1, 0);
    CorrectedFindingAt(1, 1);
    FourElements(MuxCorrected(S16, [0, 0, 0, 0], FindingSources, FindingRoutes, 2, 2), 10, 10, 20, 20);
  }
}
