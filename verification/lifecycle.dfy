/**
 * The component's lifecycle entry points declared by the header: creation
 * from an IPC descriptor, stream parameters, prepare (resolving the routine
 * for the configured frame format), the reset trigger, and the command path
 * that carries a new routing configuration.
 */
module Lifecycle {
  import opened Options
  import opened Sample
  import opened Config
  import opened Dispatch
  import opened Routing

  /** Component states the entry points set or test. */
  datatype CompState = Init | Ready | Prepared | Paused | Active

  /** Which routine family an instance runs: a combiner (mux) or a splitter (demux). */
  datatype Direction = Combiner | Splitter

  /** Stream parameters the pipeline hands the component. */
  datatype StreamParams = StreamParams(channels: nat, frameFmt: int)

  /** The generic IPC component header, copied into the device verbatim. */
  datatype IpcComp = IpcComp(id: int, compType: int, pipelineId: int)

  /**
   * The creation descriptor: the generic header, the declared size of the
   * configuration header, and the routing configuration payload.
   */
  datatype IpcCompMux = IpcCompMux(comp: IpcComp, configSize: nat, payload: MuxConfig)

  /** A component instance. */
  datatype Device = Device(state: CompState, params: StreamParams, comp: IpcComp, cd: CompData)

  /** Component commands (`COMP_CMD_*`). */
  datatype CompCmd = SetValue | GetValue | SetData | GetData

  /** Control commands (`SOF_CTRL_CMD_*`). */
  datatype CtrlCmd = Volume | Switch | Enum | Binary

  /** A control message: its command and, for binary data, a routing configuration. */
  datatype CtrlData = CtrlData(cmd: CtrlCmd, payload: MuxConfig)

  /**
   * `mux_new`: a descriptor whose configuration header does not declare
   * `expectedSize` bytes yields no device; any other yields a device in the
   * READY state holding a copy of the generic header and of the payload,
   * with no routine resolved yet. The payload is copied without validation.
   */
  function New(ipc: IpcCompMux, expectedSize: nat): (r: Option<Device>)
    ensures r.None? <==> ipc.configSize != expectedSize
    ensures r.Some? ==>
      r.value.state == Ready && r.value.comp == ipc.comp
      && r.value.cd.config == ipc.payload && r.value.cd.proc.None?
  {
    if ipc.configSize != expectedSize then None
    else Some(Device(Ready, StreamParams(0, 0), ipc.comp, CompData(None, ipc.payload)))
  }

  /** The routine the table gives an instance of direction `dir` for its current frame format. */
  function Resolve(dir: Direction, cd: CompData): (r: Option<Routine>)
    ensures r.Some? <==> exists k :: 0 <= k < |FuncMap| && FuncMap[k].frameFormat == cd.config.frameFormat
    ensures dir == Combiner ==> forall w :: r == Some(MuxRoutine(MuxFunc(w))) <==> cd.config.frameFormat == FormatOf(w)
    ensures dir == Splitter ==> forall w :: r == Some(DemuxRoutine(DemuxFunc(w))) <==> cd.config.frameFormat == FormatOf(w)
  {
    match dir
    case Combiner =>
      (match MuxGetProcessingFunction(cd) case None => None case Some(f) => Some(MuxRoutine(f)))
    case Splitter =>
      (match DemuxGetProcessingFunction(cd) case None => None case Some(f) => Some(DemuxRoutine(f)))
  }

  /**
   * `mux_prepare` / `demux_prepare`: outside READY the call fails with
   * `-EINVAL` and changes nothing; in READY with a format the table does not
   * list it fails with `-EINVAL` and the state stays READY; otherwise it
   * returns 0, moves to PREPARE and stores the routine of the format's width.
   */
  function Prepare(dir: Direction, dev: Device): (r: (int, Device))
    ensures r.0 == 0 <==> dev.state == Ready && Resolve(dir, dev.cd).Some?
    ensures r.0 != 0 ==> r.0 == -EINVAL && r.1.state == dev.state && r.1.cd.config == dev.cd.config
    ensures dev.state != Ready ==> r.1 == dev
    ensures r.0 == 0 ==> r.1.state == Prepared && r.1.cd == dev.cd.(proc := Resolve(dir, dev.cd))
    ensures r.1.params == dev.params && r.1.comp == dev.comp
  {
    if dev.state != Ready then (-EINVAL, dev)
    else
      var proc := Resolve(dir, dev.cd);
      if proc.None? then (-EINVAL, dev.(cd := dev.cd.(proc := None)))
      else (0, dev.(state := Prepared, cd := dev.cd.(proc := proc)))
  }

  /**
   * `mux_params`: the configuration's channel count and frame format become
   * the stream parameters' channels and frame format; nothing else changes.
   */
  function Params(dev: Device): (r: (int, Device))
    ensures r.0 == 0
    ensures r.1.cd.config.numChannels == dev.params.channels
    ensures r.1.cd.config.frameFormat == dev.params.frameFmt
    ensures r.1.cd.config.streams == dev.cd.config.streams && r.1.cd.proc == dev.cd.proc
    ensures r.1.state == dev.state && r.1.params == dev.params && r.1.comp == dev.comp
  {
    (0, dev.(cd := dev.cd.(config := dev.cd.config.(numChannels := dev.params.channels, frameFormat := dev.params.frameFmt))))
  }

  /** The reset trigger: always succeeds and returns the instance to READY from any state. */
  function TriggerReset(dev: Device): (r: (int, Device))
    ensures r.0 == 0 && r.1.state == Ready
    ensures r.1.cd == dev.cd && r.1.params == dev.params && r.1.comp == dev.comp
  {
    (0, dev.(state := Ready))
  }

  /**
   * `mux_ctrl_set_cmd`: only a binary control message is accepted; its payload
   * goes through `mux_set_values`. Any other control command fails with
   * `-EINVAL` and changes nothing.
   */
  method CtrlSetCmd(dev: Device, cdata: CtrlData) returns (status: int, dev': Device)
    ensures cdata.cmd != Binary ==> status == -EINVAL && dev' == dev
    ensures cdata.cmd == Binary ==> (status == 0 <==> ValidConfig(cdata.payload))
    ensures status != 0 ==> status == -EINVAL && dev' == dev
    ensures status == 0 ==> dev'.cd.config == cdata.payload && dev'.cd.proc == dev.cd.proc
    ensures dev'.state == dev.state && dev'.params == dev.params && dev'.comp == dev.comp
  {
    if cdata.cmd != Binary {
      return -EINVAL, dev;
    }
    var cd';
    status, cd' := SetValues(dev.cd, cdata.payload);
    if status == 0 {
      assert cd'.config.streams == cdata.payload.streams;
    }
    dev' := dev.(cd := cd');
  }

  /**
   * `mux_cmd`: only `SET_DATA` is handled, by the control path above; any other
   * command fails with `-EINVAL` and changes nothing.
   */
  method Cmd(dev: Device, cmd: CompCmd, cdata: CtrlData) returns (status: int, dev': Device)
    ensures cmd != SetData ==> status == -EINVAL && dev' == dev
    ensures status == 0 <==> cmd == SetData && cdata.cmd == Binary && ValidConfig(cdata.payload)
    ensures status != 0 ==> status == -EINVAL && dev' == dev
    ensures status == 0 ==> dev'.cd.config == cdata.payload && dev'.cd.proc == dev.cd.proc
    ensures dev'.state == dev.state && dev'.params == dev.params && dev'.comp == dev.comp
  {
    if cmd != SetData {
      return -EINVAL, dev;
    }
    status, dev' := CtrlSetCmd(dev, cdata);
  }

  /**
   * A created instance whose payload uses a listed format prepares
   * successfully; after a reset it can be prepared again to the same routine.
   */
  lemma NewThenPrepare(dir: Direction, ipc: IpcCompMux, expectedSize: nat, w: Width)
    requires ipc.configSize == expectedSize && ipc.payload.frameFormat == FormatOf(w)
    ensures New(ipc, expectedSize).Some?
    ensures Prepare(dir, New(ipc, expectedSize).value).0 == 0
    ensures Prepare(dir, New(ipc, expectedSize).value).1.cd.proc
         == Some(if dir == Combiner then MuxRoutine(MuxFunc(w)) else DemuxRoutine(DemuxFunc(w)))
    ensures Prepare(dir, TriggerReset(Prepare(dir, New(ipc, expectedSize).value).1).1)
         == Prepare(dir, New(ipc, expectedSize).value)
  {
    var dev := New(ipc, expectedSize).value;
    assert FuncMap[RowOf(w)].frameFormat == FormatOf(w) by { RowsCoverWidths(); }
  }

  /** A second prepare without a reset in between is refused: PREPARE is not READY. */
  lemma PrepareTwiceRefused(dir: Direction, dev: Device)
    requires Prepare(dir, dev).0 == 0
    ensures Prepare(dir, Prepare(dir, dev).1).0 == -EINVAL
  {
  }

  /**
   * Params decides what prepare finds: on a READY instance whose stream
   * parameters carry a listed format, prepare after params resolves the
   * routine of that format's width, and params again leaves the result fixed.
   */
  lemma ParamsThenPrepare(dir: Direction, dev: Device, w: Width)
    requires dev.state == Ready && dev.params.frameFmt == FormatOf(w)
    ensures Prepare(dir, Params(dev).1).0 == 0
    ensures Prepare(dir, Params(dev).1).1.cd.proc
         == Some(if dir == Combiner then MuxRoutine(MuxFunc(w)) else DemuxRoutine(DemuxFunc(w)))
    ensures Params(Params(dev).1).1 == Params(dev).1
  {
    assert FuncMap[RowOf(w)].frameFormat == FormatOf(w) by { RowsCoverWidths(); }
  }
}
