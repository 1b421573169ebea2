/**
 * The routing configuration of a mux/demux component instance, as declared by
 * the component header: one route per stream, the configuration that holds
 * them, the component's private data and the format-to-routine table entry.
 */
module Config {
  import opened Options
  import opened Sample

  /** Maximum number of streams one mux/demux instance routes. */
  const MuxMaxStreams: nat := 4

  /** Errno values the component returns negated. */
  const EINVAL: int := 22

  /** Frame format codes, in the order of the firmware's frame-format enumeration. */
  const FrameS16Le: int := 0
  const FrameS24_4Le: int := 1
  const FrameS32Le: int := 2
  const FrameFloat: int := 3

  /**
   * Routing descriptor of one stream: the pipeline it belongs to, its channel
   * count, and one 8-bit mask per channel naming which channels of the
   * counterpart stream feed that channel.
   */
  datatype StreamData = StreamData(pipelineId: int, numChannels: nat, mask: seq<bv8>)

  /**
   * The full configuration: frame format, channel count of the primary side
   * (the sink for mux, the source for demux) and the stream routes.
   * `num_streams` is the length of `streams`.
   */
  datatype MuxConfig = MuxConfig(frameFormat: int, numChannels: nat, streams: seq<StreamData>)

  /** Routine references of the format table: each names the width it processes. */
  datatype MuxFunc = MuxFunc(width: Width)
  datatype DemuxFunc = DemuxFunc(width: Width)

  /** The union in the private data: the routine resolved by the last prepare. */
  datatype Routine = MuxRoutine(mux: MuxFunc) | DemuxRoutine(demux: DemuxFunc)

  /** Private data of a component instance. */
  datatype CompData = CompData(proc: Option<Routine>, config: MuxConfig)

  /** One row of the format dispatch table. */
  datatype FuncMapEntry = FuncMapEntry(frameFormat: int, muxProc: MuxFunc, demuxProc: DemuxFunc)
}
