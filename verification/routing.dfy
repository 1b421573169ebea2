/**
 * Operations on the routing configuration: `mux_set_values`, which validates a
 * new configuration and copies it into the component's private data, and
 * `get_stream_index`, which finds the route slot of a pipeline.
 */
module Routing {
  import opened Options
  import opened Config

  /** No two routes belong to the same pipeline. */
  predicate DistinctIds(streams: seq<StreamData>)
  {
    forall i, j :: 0 <= i < j < |streams| ==> streams[i].pipelineId != streams[j].pipelineId
  }

  /** What `mux_set_values` accepts: at most `MuxMaxStreams` routes, with distinct pipeline ids. */
  predicate ValidConfig(cfg: MuxConfig)
  {
    |cfg.streams| <= MuxMaxStreams && DistinctIds(cfg.streams)
  }

  /**
   * The duplicate check as the routine makes it: every pair `i < j` compared
   * once. It reports success exactly when the pipeline ids are distinct.
   */
  method CheckDistinct(streams: seq<StreamData>) returns (ok: bool)
    ensures ok <==> DistinctIds(streams)
  {
    var i := 0;
    while i < |streams|
      invariant 0 <= i <= |streams|
      invariant forall a, b :: 0 <= a < i && a < b < |streams| ==> streams[a].pipelineId != streams[b].pipelineId
    {
      var j := i + 1;
      while j < |streams|
        invariant i < j <= |streams|
        invariant forall b :: i < b < j ==> streams[i].pipelineId != streams[b].pipelineId
      {
        if streams[i].pipelineId == streams[j].pipelineId {
          return false;
        }
        j := j + 1;
      }
      i := i + 1;
    }
    return true;
  }

  /**
   * `mux_set_values`: a configuration with too many routes or a repeated
   * pipeline id is refused with `-EINVAL` and the private data is left as it
   * was; any other is accepted with status 0, and afterwards the stored frame
   * format, channel count and every route's pipeline id, channel count and
   * masks are the new configuration's, while the resolved routine is kept.
   */
  method SetValues(cd: CompData, cfg: MuxConfig) returns (status: int, cd': CompData)
    ensures status == 0 <==> ValidConfig(cfg)
    ensures status != 0 ==> status == -EINVAL && cd' == cd
    ensures status == 0 ==>
      && cd'.proc == cd.proc
      && cd'.config.frameFormat == cfg.frameFormat
      && cd'.config.numChannels == cfg.numChannels
      && |cd'.config.streams| == |cfg.streams|
      && forall k :: 0 <= k < |cfg.streams| ==>
           cd'.config.streams[k].pipelineId == cfg.streams[k].pipelineId
           && cd'.config.streams[k].numChannels == cfg.streams[k].numChannels
           && cd'.config.streams[k].mask == cfg.streams[k].mask
  {
    if |cfg.streams| > MuxMaxStreams {
      return -EINVAL, cd;
    }
    var distinct := CheckDistinct(cfg.streams);
    if !distinct {
      return -EINVAL, cd;
    }
    return 0, cd.(config := cfg);
  }

  /** How many route slots `get_stream_index` searches: the fixed maximum, or fewer when fewer are configured. */
  function SearchBound(cd: CompData): (n: nat)
    ensures n <= MuxMaxStreams && n <= |cd.config.streams|
    ensures n == MuxMaxStreams || n == |cd.config.streams|
  {
    if |cd.config.streams| < MuxMaxStreams then |cd.config.streams| else MuxMaxStreams
  }

  /** The search from slot `i` on: the first slot whose route belongs to `pipeId`, or none. */
  function FindStream(cd: CompData, pipeId: int, i: nat): (r: Option<nat>)
    requires i <= SearchBound(cd)
    ensures r.Some? ==> i <= r.value < SearchBound(cd) && cd.config.streams[r.value].pipelineId == pipeId
    ensures r.Some? ==> forall k :: i <= k < r.value ==> cd.config.streams[k].pipelineId != pipeId
    ensures r.None? <==> forall k :: i <= k < SearchBound(cd) ==> cd.config.streams[k].pipelineId != pipeId
    decreases SearchBound(cd) - i
  {
    if i == SearchBound(cd) then None
    else if cd.config.streams[i].pipelineId == pipeId then Some(i)
    else FindStream(cd, pipeId, i + 1)
  }

  /**
   * `get_stream_index`: the first route slot belonging to `pipeId`; when no slot
   * does, slot 0, which the caller cannot tell apart from a match in slot 0.
   */
  function GetStreamIndex(cd: CompData, pipeId: int): (r: nat)
    ensures r < MuxMaxStreams
    ensures (exists k :: 0 <= k < SearchBound(cd) && cd.config.streams[k].pipelineId == pipeId) ==>
      r < |cd.config.streams| && cd.config.streams[r].pipelineId == pipeId
      && forall k :: 0 <= k < r ==> cd.config.streams[k].pipelineId != pipeId
    ensures (forall k :: 0 <= k < SearchBound(cd) ==> cd.config.streams[k].pipelineId != pipeId) ==> r == 0
  {
    match FindStream(cd, pipeId, 0)
    case None => 0
    case Some(k) => k
  }

  /**
   * After an accepted configuration, looking up the pipeline of route `k`
   * yields `k`: ids are distinct, so the first match is the route itself.
   */
  lemma StreamIndexFindsRoute(cd: CompData, k: nat)
    requires ValidConfig(cd.config) && k < |cd.config.streams|
    ensures GetStreamIndex(cd, cd.config.streams[k].pipelineId) == k
  {
    var pid := cd.config.streams[k].pipelineId;
    assert SearchBound(cd) == |cd.config.streams|;
    assert exists j :: 0 <= j < SearchBound(cd) && cd.config.streams[j].pipelineId == pid;
  }
}
