/**
 * The format dispatch table (`mux_func_map`) and its two lookups: a linear
 * scan for the first row whose frame format matches the configuration's,
 * yielding that row's mux or demux routine, or nothing for a format the table
 * does not list.
 */
module Dispatch {
  import opened Options
  import opened Sample
  import opened Config

  /** The three rows, in table order: one per supported integer sample width. */
  const FuncMap: seq<FuncMapEntry> := [
    FuncMapEntry(FrameS16Le, MuxFunc(S16), DemuxFunc(S16)),
    FuncMapEntry(FrameS24_4Le, MuxFunc(S24), DemuxFunc(S24)),
    FuncMapEntry(FrameS32Le, MuxFunc(S32), DemuxFunc(S32))
  ]

  /** The frame format code of each width the routines handle. */
  function FormatOf(w: Width): int
  {
    match w
    case S16 => FrameS16Le
    case S24 => FrameS24_4Le
    case S32 => FrameS32Le
  }

  /** The scan from row `i` on: the first matching row, or none when no later row matches. */
  function FindFrom(table: seq<FuncMapEntry>, format: int, i: nat): (r: Option<nat>)
    requires i <= |table|
    ensures r.Some? ==> i <= r.value < |table| && table[r.value].frameFormat == format
    ensures r.Some? ==> forall k :: i <= k < r.value ==> table[k].frameFormat != format
    ensures r.None? <==> forall k :: i <= k < |table| ==> table[k].frameFormat != format
    decreases |table| - i
  {
    if i == |table| then None
    else if table[i].frameFormat == format then Some(i)
    else FindFrom(table, format, i + 1)
  }

  /** Every row of the table names a different format, and each row's routines process its format's width. */
  lemma FuncMapWellFormed()
    ensures forall i, j :: 0 <= i < j < |FuncMap| ==> FuncMap[i].frameFormat != FuncMap[j].frameFormat
    ensures forall i :: 0 <= i < |FuncMap| ==>
      FuncMap[i].muxProc.width == FuncMap[i].demuxProc.width
      && FuncMap[i].frameFormat == FormatOf(FuncMap[i].muxProc.width)
  {
  }

  /** Every width has a row. */
  lemma RowsCoverWidths()
    ensures forall w :: FuncMap[RowOf(w)].frameFormat == FormatOf(w)
  {
  }

  function RowOf(w: Width): (i: nat)
    ensures i < |FuncMap|
  {
    match w
    case S16 => 0
    case S24 => 1
    case S32 => 2
  }

  /**
   * `mux_get_processing_function`: the mux routine of the first row whose format
   * is the configuration's. It is found exactly when some row lists the format,
   * and it is the routine for width `w` exactly when the format is `w`'s.
   */
  function MuxGetProcessingFunction(cd: CompData): (r: Option<MuxFunc>)
    ensures r.Some? <==> exists k :: 0 <= k < |FuncMap| && FuncMap[k].frameFormat == cd.config.frameFormat
    ensures forall w :: r == Some(MuxFunc(w)) <==> cd.config.frameFormat == FormatOf(w)
  {
    RowsCoverWidths();
    match FindFrom(FuncMap, cd.config.frameFormat, 0)
    case None => None
    case Some(k) => Some(FuncMap[k].muxProc)
  }

  /** `demux_get_processing_function`: the same scan, yielding the row's demux routine. */
  function DemuxGetProcessingFunction(cd: CompData): (r: Option<DemuxFunc>)
    ensures r.Some? <==> exists k :: 0 <= k < |FuncMap| && FuncMap[k].frameFormat == cd.config.frameFormat
    ensures forall w :: r == Some(DemuxFunc(w)) <==> cd.config.frameFormat == FormatOf(w)
  {
    RowsCoverWidths();
    match FindFrom(FuncMap, cd.config.frameFormat, 0)
    case None => None
    case Some(k) => Some(FuncMap[k].demuxProc)
  }

  /** Both lookups resolve from the same row: either both find routines of one width or neither finds one. */
  lemma LookupsPaired(cd: CompData)
    ensures MuxGetProcessingFunction(cd).Some? <==> DemuxGetProcessingFunction(cd).Some?
    ensures MuxGetProcessingFunction(cd).Some? ==>
      MuxGetProcessingFunction(cd).value.width == DemuxGetProcessingFunction(cd).value.width
  {
  }

  /** Each row's format resolves to that row's own routine pair. */
  lemma EveryRowResolves(cd: CompData, i: nat)
    requires i < |FuncMap| && cd.config.frameFormat == FuncMap[i].frameFormat
    ensures MuxGetProcessingFunction(cd) == Some(FuncMap[i].muxProc)
    ensures DemuxGetProcessingFunction(cd) == Some(FuncMap[i].demuxProc)
  {
    FuncMapWellFormed();
  }

  /** The floating-point format and an unknown code such as 999 have no routines. */
  lemma UnsupportedFormats(cd: CompData)
    requires cd.config.frameFormat == FrameFloat || cd.config.frameFormat == 999
    ensures MuxGetProcessingFunction(cd) == None
    ensures DemuxGetProcessingFunction(cd) == None
  {
  }
}
