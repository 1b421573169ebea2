/**
 * The numeric regression vectors of the routines' unit tests, restated as
 * facts about the model. The tests store 32-bit words and, for the 16-bit
 * routines, let the routine read the same bytes as 16-bit samples;
 * `Int16View` is that reinterpretation (little-endian halves).
 */
module Vectors {
  import opened Options
  import opened Ints
  import opened Sample
  import opened Calc
  import opened Config
  import opened Interleave
  import opened Demux
  import opened Mux

  /** A 16-bit container's bits read as a signed value. */
  function Signed16(u: nat): (r: int)
    requires u < 0x1_0000
    ensures IsInt16(r)
    ensures (u - r) % 0x1_0000 == 0
  {
    if u >= 0x8000 then u - 0x1_0000 else u
  }

  /** Half `h` (0 low, 1 high) of a 32-bit word, as a signed 16-bit sample. */
  function Half(word: int, h: nat): (r: int)
    requires IsInt32(word) && h < 2
    ensures IsInt16(r)
    ensures 0 <= word < 0x8000 ==> r == (if h == 0 then word else 0)
  {
    var u := word % 0x1_0000_0000;
    Signed16(if h == 0 then u % 0x1_0000 else u / 0x1_0000)
  }

  /** An array of 32-bit words read as twice as many 16-bit samples, low half first. */
  function Int16View(words: seq<int>): (r: seq<int>)
    requires forall k :: 0 <= k < |words| ==> IsInt32(words[k])
    ensures |r| == 2 * |words|
    ensures BufferFits(S16, r)
  {
    if words == [] then []
    else [Half(words[0], 0), Half(words[0], 1)] + Int16View(words[1..])
  }

  /** The accumulator test input. */
  const InputCalc: seq<int> := [2, 54, 43, 6, 3, 62]

  /**
   * The 16-bit accumulator over the accumulator test input read as 16-bit
   * samples, with the settings (2, 0, 0b1), (3, 0, 0b10), (5, 0, 0b11),
   * gives 2, 0 and 2.
   */
  lemma CalcVectorsS16()
    ensures BufferFits(S16, Int16View(InputCalc))
    ensures ReadsInside(Int16View(InputCalc), 2, 0, 1) && CalcSample(S16, Int16View(InputCalc), 2, 0, 1) == 2
    ensures ReadsInside(Int16View(InputCalc), 3, 0, 2) && CalcSample(S16, Int16View(InputCalc), 3, 0, 2) == 0
    ensures ReadsInside(Int16View(InputCalc), 5, 0, 3) && CalcSample(S16, Int16View(InputCalc), 5, 0, 3) == 2
  {
    InputCalcView();
    CalcVectors(S16, Int16View(InputCalc));
  }

  /** The accumulator test input read as 16-bit samples begins 2, 0, 54. */
  lemma InputCalcView()
    ensures |Int16View(InputCalc)| == 12
    ensures Int16View(InputCalc)[0] == 2 && Int16View(InputCalc)[1] == 0 && Int16View(InputCalc)[2] == 54
  {
    var v := Int16View(InputCalc);
    assert v == [Half(2, 0), Half(2, 1)] + Int16View(InputCalc[1..]);
    assert Int16View(InputCalc[1..])[0] == Half(54, 0);
  }

  /** The three accumulator settings of the tests, over any source whose first samples are known. */
  lemma CalcVectors(w: Width, src: seq<int>)
    requires |src| >= 5 && BufferFits(w, src)
    ensures ReadsInside(src, 2, 0, 1) && CalcSample(w, src, 2, 0, 1) == ReadSample(w, src[0])
    ensures ReadsInside(src, 3, 0, 2) && CalcSample(w, src, 3, 0, 2) == ReadSample(w, src[1])
    ensures ReadsInside(src, 5, 0, 3) && CalcSample(w, src, 5, 0, 3) == ReadSample(w, src[0]) + ReadSample(w, src[1])
  {
    assert Bit(0) == 1 && Bit(1) == 2 && (1 as bv8) | 2 == 3 && (1 as bv8) & 2 == 0;
    CalcSampleBit(w, src, 2, 0, 0);
    CalcSampleBit(w, src, 3, 0, 1);
    CalcSampleDisjoint(w, src, 5, 0, 1, 2);
    CalcSampleBit(w, src, 5, 0, 0);
    CalcSampleBit(w, src, 5, 0, 1);
  }

  /**
   * The 24-bit accumulator over the same input taken as 32-bit containers,
   * with the same settings, gives 2, 54 and 56.
   */
  lemma CalcVectorsS24()
    ensures BufferFits(S24, InputCalc)
    ensures ReadsInside(InputCalc, 2, 0, 1) && CalcSample(S24, InputCalc, 2, 0, 1) == 2
    ensures ReadsInside(InputCalc, 3, 0, 2) && CalcSample(S24, InputCalc, 3, 0, 2) == 54
    ensures ReadsInside(InputCalc, 5, 0, 3) && CalcSample(S24, InputCalc, 5, 0, 3) == 56
  {
    CalcVectors(S24, InputCalc);
  }

  /** The route of the demux test: two output channels, every mask 0b1. */
  const DemuxTestRoute: StreamData := StreamData(0, 2, [1, 1, 1, 1])

  /**
   * 16-bit demux of a one-channel source into two output channels over three
   * frames: each source sample is duplicated into both channels, whatever the
   * sink held. The test copies six bytes of its word input, so the source is
   * the first three 16-bit samples: (14, 0, 15), (20, 0, 14) or (2, 0, 5).
   */
  lemma DemuxVectorS16(sink: seq<int>, a: int, b: int)
    requires |sink| == 6 && IsInt16(a) && IsInt16(b)
    ensures DemuxArgs(S16, sink, [a, 0, b], 1, 3, DemuxTestRoute)
    ensures Demux.Demux(S16, sink, [a, 0, b], 1, 3, DemuxTestRoute) == [a, a, 0, 0, b, b]
  {
    var src := [a, 0, b];
    DemuxTestArgs(sink, src);
    var r := Demux.Demux(S16, sink, src, 1, 3, DemuxTestRoute);
    DemuxDuplicates(sink, src, 0, 0);
    DemuxDuplicates(sink, src, 0, 1);
    DemuxDuplicates(sink, src, 1, 0);
    DemuxDuplicates(sink, src, 1, 1);
    DemuxDuplicates(sink, src, 2, 0);
    DemuxDuplicates(sink, src, 2, 1);
    assert |r| == 6;
  }

  /** The test's buffers are large enough for its three frames. */
  lemma DemuxTestArgs(sink: seq<int>, src: seq<int>)
    requires |sink| == 6 && |src| == 3 && BufferFits(S16, src)
    ensures DemuxArgs(S16, sink, src, 1, 3, DemuxTestRoute)
  {
    FitsFramesWhole(3, 1, 3);
    FitsFramesWhole(6, 2, 3);
  }

  /** Under the test route, output channel `o` of frame `i` holds source sample `i`. */
  lemma DemuxDuplicates(sink: seq<int>, src: seq<int>, i: nat, o: nat)
    requires |sink| == 6 && |src| == 3 && BufferFits(S16, src) && i < 3 && o < 2
    requires DemuxArgs(S16, sink, src, 1, 3, DemuxTestRoute)
    ensures Demux.Demux(S16, sink, src, 1, 3, DemuxTestRoute)[2 * i + o] == src[i]
  {
    DemuxTestSample(src, i, o);
    assert At(2, i, o) == 2 * i + o;
  }

  /** Under the test route, every output channel of frame `i` is source sample `i`. */
  lemma DemuxTestSample(src: seq<int>, i: nat, o: nat)
    requires |src| == 3 && BufferFits(S16, src) && i < 3 && o < 2
    ensures DemuxSample(S16, src, 1, DemuxTestRoute, i, o) == src[i]
  {
    assert Bit(0) == 1;
    CalcSampleBit(S16, src, 1, i, 0);
  }

  /** The three word inputs of the demux and mux tests. */
  const Inputs: seq<seq<int>> := [[14, 15, 16, 17, 18, 19], [20, 14, 43, 6, 53, 2], [2, 5, 74, 47, 8, 3]]

  /** The demux test inputs give the expected outputs. */
  lemma DemuxVectorsS16(sink: seq<int>)
    requires |sink| == 6
    ensures Demux.Demux(S16, sink, [14, 0, 15], 1, 3, DemuxTestRoute) == [14, 14, 0, 0, 15, 15]
    ensures Demux.Demux(S16, sink, [20, 0, 14], 1, 3, DemuxTestRoute) == [20, 20, 0, 0, 14, 14]
    ensures Demux.Demux(S16, sink, [2, 0, 5], 1, 3, DemuxTestRoute) == [2, 2, 0, 0, 5, 5]
  {
    DemuxVectorS16(sink, 14, 15);
    DemuxVectorS16(sink, 20, 14);
    DemuxVectorS16(sink, 2, 5);
  }

  /** Small non-negative words read as 16-bit samples: each word, then a zero high half. */
  lemma {:induction false} Int16ViewSmall(words: seq<int>, k: nat)
    requires forall j :: 0 <= j < |words| ==> 0 <= words[j] < 0x8000
    requires k < |words|
    ensures Int16View(words)[2 * k] == words[k] && Int16View(words)[2 * k + 1] == 0
  {
    if k > 0 {
      Int16ViewSmall(words[1..], k - 1);
      assert Int16View(words) == [Half(words[0], 0), Half(words[0], 1)] + Int16View(words[1..]);
    }
  }

  /** The routes of the mux test: two channels per stream, mask 0b1 for the first two sink channels. */
  const MuxTestRoutes: seq<StreamData> := [
    StreamData(0, 2, [1, 1, 0, 0]), StreamData(0, 2, [1, 1, 0, 0]),
    StreamData(0, 2, [1, 1, 0, 0]), StreamData(0, 2, [1, 1, 0, 0])
  ]

  /** The mux test's sources: all four slots read the same word input as 16-bit samples. */
  function MuxTestSources(words: seq<int>): (r: seq<Option<seq<int>>>)
    requires |words| == 6 && forall j :: 0 <= j < 6 ==> 0 <= words[j] < 0x2000
    ensures |r| == MuxMaxStreams
  {
    var v := Int16View(words);
    [Some(v), Some(v), Some(v), Some(v)]
  }

  /** Every slot of the mux test contributes the first channel of frame `i`, a 16-bit sample. */
  lemma MuxTestContribution(words: seq<int>, i: nat, j: nat)
    requires |words| == 6 && forall k :: 0 <= k < 6 ==> 0 <= words[k] < 0x2000
    requires i < 3 && j < MuxMaxStreams
    requires MuxInputs(S16, MuxTestSources(words), MuxTestRoutes, 1, 3)
    ensures Contribution(S16, MuxTestSources(words), MuxTestRoutes, 1, 3, i, 0, j) == words[i]
  {
    var v := Int16View(words);
    ViewFrameSample(words, i);
    assert MuxTestSources(words)[j] == Some(v);
    assert MuxTestRoutes[j].numChannels == 2 && MuxTestRoutes[j].mask[0] == 1;
  }

  /** Channel 0 of two-channel frame `i` of the 16-bit view is word `i`. */
  lemma ViewFrameSample(words: seq<int>, i: nat)
    requires |words| == 6 && forall k :: 0 <= k < 6 ==> 0 <= words[k] < 0x2000
    requires i < 3
    ensures ReadsInside(Int16View(words), 2, i * 2, 1)
    ensures CalcSample(S16, Int16View(words), 2, i * 2, 1) == words[i]
  {
    var v := Int16View(words);
    assert Bit(0) == 1;
    Int16ViewSmall(words, i);
    CalcSampleBit(S16, v, 2, i * 2, 0);
  }

  /** The mux test's inputs satisfy the routine's requirements on a sink of 20 words. */
  lemma MuxTestArgs(sink: seq<int>, words: seq<int>)
    requires |sink| == 40
    requires |words| == 6 && forall k :: 0 <= k < 6 ==> 0 <= words[k] < 0x2000
    ensures MuxArgs(S16, sink, MuxTestSources(words), MuxTestRoutes, 1, 3)
  {
    FitsFramesWhole(12, 2, 3);
    assert WrittenBelow(2, 3, 1) == 5;
  }

  /**
   * 16-bit mux of four identical two-channel sources into a one-channel sink
   * over three frames: sink sample `i` is four times the first channel of
   * frame `i`. The store stride is stream 0's two channels, so the three
   * samples land at positions 0, 2 and 4, the positions the test reads.
   */
  lemma MuxVectorS16(sink: seq<int>, words: seq<int>)
    requires |sink| == 40
    requires |words| == 6 && forall k :: 0 <= k < 6 ==> 0 <= words[k] < 0x2000
    ensures MuxArgs(S16, sink, MuxTestSources(words), MuxTestRoutes, 1, 3)
    ensures Mux.Mux(S16, sink, MuxTestSources(words), MuxTestRoutes, 1, 3)[0] == 4 * words[0]
    ensures Mux.Mux(S16, sink, MuxTestSources(words), MuxTestRoutes, 1, 3)[2] == 4 * words[1]
    ensures Mux.Mux(S16, sink, MuxTestSources(words), MuxTestRoutes, 1, 3)[4] == 4 * words[2]
  {
    MuxTestArgs(sink, words);
    MuxTestFrame(sink, words, 0);
    MuxTestFrame(sink, words, 1);
    MuxTestFrame(sink, words, 2);
  }

  /** Frame `i` of the mux test: four equal contributions, summed without saturating, stored at `2 * i`. */
  lemma MuxTestFrame(sink: seq<int>, words: seq<int>, i: nat)
    requires |sink| == 40 && i < 3
    requires |words| == 6 && forall k :: 0 <= k < 6 ==> 0 <= words[k] < 0x2000
    requires MuxArgs(S16, sink, MuxTestSources(words), MuxTestRoutes, 1, 3)
    ensures Mux.Mux(S16, sink, MuxTestSources(words), MuxTestRoutes, 1, 3)[2 * i] == 4 * words[i]
  {
    var sources := MuxTestSources(words);
    MuxTestContribution(words, i, 0);
    MuxTestContribution(words, i, 1);
    MuxTestContribution(words, i, 2);
    MuxTestContribution(words, i, 3);
    assert MuxSum(S16, sources, MuxTestRoutes, 1, 3, i, 0, 1) == words[i];
    assert MuxSum(S16, sources, MuxTestRoutes, 1, 3, i, 0, 2) == 2 * words[i];
    assert MuxSum(S16, sources, MuxTestRoutes, 1, 3, i, 0, 3) == 3 * words[i];
    assert MuxSum(S16, sources, MuxTestRoutes, 1, 3, i, 0, 4) == 4 * words[i];
    assert At(2, i, 0) == 2 * i;
  }

  /** The three mux test inputs give 56, 60, 64; 80, 56, 172; and 8, 20, 296. */
  lemma MuxVectorsS16(sink: seq<int>)
    requires |sink| == 40
    ensures MuxArgs(S16, sink, MuxTestSources(Inputs[0]), MuxTestRoutes, 1, 3)
    ensures var r := Mux.Mux(S16, sink, MuxTestSources(Inputs[0]), MuxTestRoutes, 1, 3);
      r[0] == 56 && r[2] == 60 && r[4] == 64
    ensures MuxArgs(S16, sink, MuxTestSources(Inputs[1]), MuxTestRoutes, 1, 3)
    ensures var r := Mux.Mux(S16, sink, MuxTestSources(Inputs[1]), MuxTestRoutes, 1, 3);
      r[0] == 80 && r[2] == 56 && r[4] == 172
    ensures MuxArgs(S16, sink, MuxTestSources(Inputs[2]), MuxTestRoutes, 1, 3)
    ensures var r := Mux.Mux(S16, sink, MuxTestSources(Inputs[2]), MuxTestRoutes, 1, 3);
      r[0] == 8 && r[2] == 20 && r[4] == 296
  {
    MuxVectorS16(sink, Inputs[0]);
    MuxVectorS16(sink, Inputs[1]);
    MuxVectorS16(sink, Inputs[2]);
  }
}
