/**
 The globals of the daemon and the functions that work on them: src/registry.c, the command handlers
 and callbacks of src/dtv_io.c, and handle_pdu of src/io.c. Every method is proved to do what the state
 machine of Services does.
 */
module Daemons {
  import opened Base
  import opened Protocol
  import opened Wire
  import opened Records
  import opened PduBuffer
  import opened Ancillary
  import opened SetSourceReply
  import opened DtvMessages
  import opened TunerIds
  import opened DeviceTable
  import opened TvHal
  import opened Dtv
  import opened SendQueue
  import opened IoStates
  import opened Services
  import opened Runs

  /** No 32-bit size of this list wraps around. */
  ghost predicate NoWrap(rs: seq<Record>) {
    AllReadable(rs) ==> 4 + CalculatedSizes(rs) < TWO32
  }

  /** The one size that the command adds up does not wrap around. */
  ghost predicate SizesFit(h: Hal, cmd: Pdu, env: CommandEnv) {
    match Lookup(cmd.opcode, DtvTable())
    case None => true
    case Some(command) =>
      match command
      case SetSource =>
        ReadSource(cmd).Some? ==> 16 + 4 * HandleRead(h, ParseId(ReadSource(cmd).value), env).numFds < TWO32
      case SetChannel => CalculatedSize(ChannelRec(env.channel)) < TWO32
      case GetChannels => NoWrap(env.channels)
      case GetPrograms => NoWrap(env.programs)
      case _ => true
  }

  /** Only the DTV service adds up sizes that depend on its data. */
  ghost predicate CommandSizesOk(s: State, cmd: Pdu, env: CommandEnv) {
    Lookup(cmd.service, s.handlers) == Some(DtvHandler) ==> SizesFit(s.hal, cmd, env)
  }

  /** The sizes of a notification do not wrap around. */
  ghost predicate SizesOk(tunerId: Option<CStr>, n: Notification) {
    && (n.ChannelScanned? ==> CalculatedSize(ChannelRec(n.channel)) < TWO32)
    && (n.EitBroadcasted? && tunerId.Some? && AllReadable(n.programs) ==> EitSize(tunerId.value, n.channel, n.programs) < TWO32)
  }

  class Daemon {
    const wordSize: WordSize
    const serviceHandler: array<Option<Handler>>   // g_service_handler
    const hal: DeviceList                          // src/tv_hal.c
    const ioState: IoState                         // g_io_state[0]
    var sendPdu: bool                              // DTV's send_pdu is set
    var tasks: seq<Msg>
    var running: bool
    var fault: bool                                // memory was used that is not there, here or in src/dtv_pdu.c
    ghost var handled: seq<Handled>
    ghost var log: seq<TableOp>

    ghost predicate Valid()
      reads this, serviceHandler, hal, hal.deviceList, ioState
    {
      serviceHandler.Length == PDU_MAX_NUM_SERVICES && hal.Valid()
    }

    ghost function View(): State
      requires Valid()
      reads this, serviceHandler, hal, hal.deviceList, ioState
    {
      State(serviceHandler[..], sendPdu, hal.View(), ioState.View(), tasks, running, fault, handled, log)
    }

    /** init_io and fd_con_out, when they succeed: the connection stands and init_registry has been called. */
    constructor (wordSize: WordSize)
      ensures Valid() && View() == START_UP
      ensures fresh(serviceHandler) && fresh(hal) && fresh(hal.deviceList) && fresh(ioState)
    {
      this.wordSize := wordSize;
      serviceHandler := new Option<Handler>[PDU_MAX_NUM_SERVICES](_ => None);
      hal := new DeviceList();
      ioState := new IoState();
      sendPdu, tasks, running, fault, handled, log := false, [], true, false, [], [];
      new;
      serviceHandler[SERVICE_REGISTRY] := Some(RegistryHandler);
      var res := ioState.Connect(3, true, true);
      assert serviceHandler[..] == TableOf([Some(RegistryHandler)]);
    }

    /** send_pdu of src/io.c: a failed registration goes unnoticed. */
    method SendPdu(m: Msg, env: Env)
      requires Valid()
      modifies ioState
      ensures Valid() && View() == old(View()).(io := Send(old(View()).io, m, env).0)
    {
      var res := ioState.StateSend(m, env);
    }

    // ---------- src/dtv_io.c ----------

    /** The tuners of get_tuners: an array of dtv_get_tuner_num elements, filled by dtv_get_tuners. */
    method ListTuners() returns (list: seq<Record>)
      requires Valid()
      ensures list == TunerRecords(hal.View().slots)
    {
      var tunerNum := DtvGetTunerNum(hal);
      var tuners := new Tuner[tunerNum](_ => Tuner([], []));
      DtvGetTuners(hal, tunerNum, tuners);
      list := seq(tunerNum, k requires 0 <= k < tunerNum reads tuners => TunerRec(tuners[k]));
    }

    /** The size loop, the append loop and the send that get_tuners, get_channels and get_programs share. */
    method SendList(cmd: Pdu, rs: List32<Record>, env: CommandEnv) returns (status: byte)
      requires Valid() && NoWrap(rs)
      modifies `fault, ioState
      ensures Valid()
      ensures (View(), status) == if AllReadable(rs) then Respond(old(View()), cmd, ListPayload(rs), [], env)
                                  else (old(View()).(fault := true), ERROR_NOMEM)
    {
      if AllReadable(rs) {
        ListPayloadIs(rs);
      }
      var wbuf, faulted;
      status, wbuf, faulted := BuildListReply(cmd.service, cmd.opcode, rs, env.memoryOk);
      fault := fault || faulted;
      if status == ERROR_NONE {
        SendPdu(Msg(wbuf.service, wbuf.opcode, wbuf.Payload(), []), env.send);
      }
    }

    method GetTuners(cmd: Pdu, env: CommandEnv) returns (status: byte)
      requires Valid()
      modifies `fault, ioState
      ensures Valid()
      ensures (View(), status) == Respond(old(View()), cmd, ListPayload(TunerRecords(old(View()).hal.slots)), [], env)
    {
      var list := ListTuners();
      TunersDoNotWrap(hal.View().slots);
      status := SendList(cmd, list, env);
    }

    /** send_pdu of a reply whose tail may hold descriptors. */
    method SendWithFds(wbuf: Wbuf, handle: Handle, env: Env)
      requires Valid() && wbuf.Valid() && 16 + 4 * handle.numFds < TWO32
      requires if handle.numFds == 0 then wbuf.tailSize == 0
               else wbuf.tailSize > 0 && HoldsFds(wbuf, wordSize, Fds(handle))
      modifies ioState, wbuf.raw
      ensures Valid()
      ensures View() == old(View()).(io := Send(old(View()).io,
                                                Msg(wbuf.service, wbuf.opcode, old(wbuf.Payload()), Fds(handle)), env).0)
    {
      CmsgSizes(wordSize, 4 * handle.numFds);
      var m := Transmit(wbuf, wordSize, Fds(handle));
      SendPdu(m, env);
    }

    /** set_source once the stream is there; the allocator may put the buffer anywhere. */
    method SendHandle(cmd: Pdu, handle: Handle, env: CommandEnv) returns (status: byte)
      requires Valid() && 16 + 4 * handle.numFds < TWO32
      modifies `fault, ioState
      ensures Valid()
      ensures (View(), status) == Services.SendHandle(old(View()), cmd, handle, env)
    {
      var address: nat := *;
      var wbuf, faulted;
      status, wbuf, faulted := BuildSetSourceReply(cmd.service, cmd.opcode, wordSize, address, handle, env.memoryOk);
      fault := fault || faulted;
      if status == ERROR_NONE {
        SendWithFds(wbuf, handle, env.send);
      }
    }

    /** `tvStream` is the handle in the stream structure of set_source, which starts out as whatever is there. */
    method SetSource(cmd: Pdu, env: CommandEnv) returns (status: byte)
      requires Valid()
      requires ReadSource(cmd).Some? ==>
                 16 + 4 * HandleRead(View().hal, ParseId(ReadSource(cmd).value), env).numFds < TWO32
      modifies `fault, hal, hal.deviceList, ioState
      ensures Valid() && (View(), status) == HandleSetSource(old(View()), cmd, env)
    {
      var id := ReadSource(cmd);
      if id.None? {
        return ERROR_FAIL;
      }
      var deviceId := ParseTunerId(id.value);
      var tvStream, filled := env.stale, false;
      status, filled := hal.GetStream(AsI32(deviceId), env.answers);
      if filled {
        tvStream := env.handle;
      }
      if hal.fault {
        return ERROR_FAIL;
      }
      if status != TV_STATUS_SUCCESS {
        return;
      }
      status := SendHandle(cmd, tvStream, env);
    }

    /** start_scan, stop_scan and clean_cache: an empty response once the vendor library has agreed. */
    method EmptyVendorReply(cmd: Pdu, call: Option<VendorCall>, env: CommandEnv) returns (status: byte)
      requires Valid()
      modifies ioState
      ensures Valid() && (View(), status) == HandleVendor(old(View()), cmd, call, [], env)
    {
      if call.None? {
        return ERROR_FAIL;
      }
      var agreed := env.vendor(call.value);
      if agreed != TV_STATUS_SUCCESS {
        return agreed;
      }
      if !env.memoryOk {
        return ERROR_NOMEM;
      }
      var wbuf := new Wbuf(0, 0, 0);
      wbuf.InitPdu(cmd.service, cmd.opcode);
      SendPdu(Msg(wbuf.service, wbuf.opcode, wbuf.Payload(), []), env.send);
      return ERROR_NONE;
    }

    method SetChannel(cmd: Pdu, env: CommandEnv) returns (status: byte)
      requires Valid() && CalculatedSize(ChannelRec(env.channel)) < TWO32
      modifies ioState
      ensures Valid()
      ensures (View(), status) == HandleVendor(old(View()), cmd, SetChannelCall(cmd), AppendedRecord(ChannelRec(env.channel)), env)
    {
      var call := SetChannelCall(cmd);
      if call.None? {
        return ERROR_FAIL;
      }
      var agreed := env.vendor(call.value);
      if agreed != TV_STATUS_SUCCESS {
        return agreed;
      }
      var wbuf;
      status, wbuf := BuildChannelReply(cmd.service, cmd.opcode, env.channel, env.memoryOk);
      if status == ERROR_NONE {
        SendPdu(Msg(wbuf.service, wbuf.opcode, wbuf.Payload(), []), env.send);
      }
    }

    /** get_channels and get_programs. */
    method VendorList(cmd: Pdu, call: Option<VendorCall>, rs: List32<Record>, env: CommandEnv) returns (status: byte)
      requires Valid() && NoWrap(rs)
      modifies `fault, ioState
      ensures Valid()
      ensures (View(), status) ==
              if Agrees(call, env) && !AllReadable(rs)
              then (old(View()).(fault := true), ERROR_NOMEM)
              else HandleVendor(old(View()), cmd, call, if AllReadable(rs) then ListPayload(rs) else [], env)
    {
      if call.None? {
        return ERROR_FAIL;
      }
      var agreed := env.vendor(call.value);
      if agreed != TV_STATUS_SUCCESS {
        return agreed;
      }
      status := SendList(cmd, rs, env);
    }

    method HandleDtvPdu(cmd: Pdu, env: CommandEnv) returns (status: byte)
      requires Valid() && SizesFit(View().hal, cmd, env)
      modifies `fault, hal, hal.deviceList, ioState
      ensures Valid() && (View(), status) == HandleDtv(old(View()), cmd, env)
    {
      var entry := Lookup(cmd.opcode, DtvTable());
      if entry.None? {
        return ERROR_UNSUPPORTED;
      }
      match entry.value
      case GetTuners => status := GetTuners(cmd, env);
      case SetSource => status := SetSource(cmd, env);
      case StartScan => status := EmptyVendorReply(cmd, StartScanCall(cmd), env);
      case StopScan => status := EmptyVendorReply(cmd, StopScanCall(cmd), env);
      case ClearCache => status := EmptyVendorReply(cmd, Some(ClearChannelCache), env);
      case SetChannel => status := SetChannel(cmd, env);
      case GetChannels => status := VendorList(cmd, GetChannelsCall(cmd), env.channels, env);
      case GetPrograms => status := VendorList(cmd, GetProgramsCall(cmd), env.programs, env);
    }

    method RegisterDtv(env: CommandEnv) returns (handler: Option<Handler>)
      requires Valid()
      modifies `sendPdu, `log, hal
      ensures Valid() && (View(), handler) == Services.RegisterDtv(old(View()), env)
    {
      log := [];
      var ret := hal.TvInputHalInit(env.moduleOk, env.deviceOk);
      if ret != TV_STATUS_SUCCESS {
        ret := hal.TvInputHalUninit();
        return None;
      }
      sendPdu := true;
      return Some(DtvHandler);
    }

    method UnregisterDtv()
      requires Valid()
      modifies `sendPdu, hal
      ensures Valid() && View() == Services.UnregisterDtv(old(View()))
    {
      var ret := hal.TvInputHalUninit();
      sendPdu := false;
    }

    // ---------- src/registry.c ----------

    /** The reply of register_module. */
    method SendVersion(wbuf: Wbuf, cmd: Pdu, env: Env)
      requires Valid() && wbuf.Valid() && wbuf.maxLen == 4
      modifies ioState, wbuf, wbuf.raw
      ensures Valid()
      ensures View() == old(View()).(io := Send(old(View()).io,
                                                Msg(cmd.service, cmd.opcode, U32Bytes(PROTOCOL_VERSION), []), env).0)
    {
      wbuf.InitPdu(cmd.service, cmd.opcode);
      EncodeOne(I(PROTOCOL_VERSION));
      var res := wbuf.Append([I(PROTOCOL_VERSION)]);
      assert wbuf.Payload() == U32Bytes(PROTOCOL_VERSION);
      SendPdu(Msg(wbuf.service, wbuf.opcode, wbuf.Payload(), []), env);
    }

    method RegisterModule(cmd: Pdu, env: CommandEnv) returns (status: byte)
      requires Valid()
      modifies `sendPdu, `log, serviceHandler, hal, ioState
      ensures Valid() && (View(), status) == HandleRegister(old(View()), cmd, env)
    {
      var service := ReadService(cmd);
      if service.None? {
        return ERROR_PARM_INVALID;
      }
      if serviceHandler[service.value].Some? {
        return ERROR_FAIL;
      }
      if service.value != SERVICE_DTV {
        return ERROR_FAIL;
      }
      if !env.memoryOk {
        return ERROR_NOMEM;
      }
      var wbuf := new Wbuf(0, 4, 0);
      var handler := RegisterDtv(env);
      if handler.None? {
        return ERROR_FAIL;
      }
      ghost var table := serviceHandler[..];
      serviceHandler[service.value] := handler;
      assert serviceHandler[..] == table[service.value := handler];
      SendVersion(wbuf, cmd, env.send);
      return ERROR_NONE;
    }

    method UnregisterModule(cmd: Pdu, env: CommandEnv) returns (status: byte)
      requires Valid()
      modifies `sendPdu, serviceHandler, hal, ioState
      ensures Valid() && (View(), status) == HandleUnregister(old(View()), cmd, env)
    {
      var service := ReadService(cmd);
      if service.None? {
        return ERROR_PARM_INVALID;
      }
      if !env.memoryOk {
        return ERROR_NOMEM;
      }
      var wbuf := new Wbuf(0, 0, 0);
      if service.value == SERVICE_REGISTRY {
        return ERROR_FAIL;
      }
      if service.value != SERVICE_DTV {
        return ERROR_FAIL;
      }
      UnregisterDtv();
      ghost var table := serviceHandler[..];
      serviceHandler[service.value] := None;
      assert serviceHandler[..] == table[service.value := None];
      wbuf.InitPdu(cmd.service, cmd.opcode);
      SendPdu(Msg(wbuf.service, wbuf.opcode, wbuf.Payload(), []), env.send);
      return ERROR_NONE;
    }

    method HandleRegistryPdu(cmd: Pdu, env: CommandEnv) returns (status: byte)
      requires Valid()
      modifies `sendPdu, `log, serviceHandler, hal, ioState
      ensures Valid() && (View(), status) == HandleRegistry(old(View()), cmd, env)
    {
      var entry := Lookup(cmd.opcode, RegistryTable());
      if entry.None? {
        return ERROR_UNSUPPORTED;
      }
      match entry.value
      case RegisterModule => status := RegisterModule(cmd, env);
      case UnregisterModule => status := UnregisterModule(cmd, env);
    }

    // ---------- src/io.c ----------

    method HandlePduByService(cmd: Pdu, env: CommandEnv) returns (status: byte)
      requires Valid() && CommandSizesOk(View(), cmd, env)
      modifies `sendPdu, `log, `fault, serviceHandler, hal, hal.deviceList, ioState
      ensures Valid() && (View(), status) == Dispatch(old(View()), cmd, env)
    {
      var entry := Lookup(cmd.service, serviceHandler[..]);
      if entry.None? {
        return ERROR_UNSUPPORTED;
      }
      match entry.value
      case RegistryHandler => status := HandleRegistryPdu(cmd, env);
      case DtvHandler => status := HandleDtvPdu(cmd, env);
    }

    method SendErrorReply(service: byte, error: byte, env: CommandEnv)
      requires Valid()
      modifies `running, ioState
      ensures Valid() && View() == Services.SendErrorReply(old(View()), service, error, env)
    {
      if !env.errorMemoryOk {
        running := false;
        return;
      }
      var wbuf := new Wbuf(0, 1, 0);
      wbuf.InitPdu(service, OPCODE_ERROR);
      EncodeOne(C(error));
      var app := wbuf.Append([C(error)]);
      assert wbuf.Payload() == [error];
      var res := ioState.StateSend(Msg(wbuf.service, wbuf.opcode, wbuf.Payload(), []), env.send);
      running := res >= 0;
    }

    /** handle_pdu: one command, in a connected, running daemon. */
    method HandlePdu(cmd: Pdu, env: CommandEnv)
      requires Valid() && CommandSizesOk(View(), cmd, env)
      modifies this, serviceHandler, hal, hal.deviceList, ioState
      ensures Valid() && View() == HandleCommand(old(View()), cmd, env)
    {
      var status := HandlePduByService(cmd, env);
      if hal.fault || fault {
        running := false;
      } else if status != ERROR_NONE {
        SendErrorReply(cmd.service, status, env);
      }
      handled := handled + [Handled(cmd, status)];
    }

    // ---------- notifications ----------

    /** The notification callbacks with run_task; `memoryOk && taskOk` is `ok` in the state machine. */
    method Notify(tunerId: Option<CStr>, sourceType: byte, n: Notification, memoryOk: bool, taskOk: bool)
      requires Valid() && SizesOk(tunerId, n)
      modifies `tasks, `fault, `running
      ensures Valid() && View() == QueueNotification(old(View()), tunerId, sourceType, n, memoryOk && taskOk)
    {
      if tunerId == None {
        return;
      }
      var wbuf: Wbuf?, faulted := null, false;
      match n {
        case ChannelScanned(ch) => wbuf := BuildChannelScanned(tunerId.value, sourceType, ch, memoryOk);
        case ScanComplete => wbuf := BuildScanStatus(OPCODE_SCANNED_COMPLETE, tunerId.value, sourceType, memoryOk);
        case ScanStopped => wbuf := BuildScanStatus(OPCODE_SCAN_STOPPED, tunerId.value, sourceType, memoryOk);
        case EitBroadcasted(ch, progs) => wbuf, faulted := BuildEit(tunerId.value, sourceType, ch, progs, memoryOk);
      }
      if faulted {
        fault, running := true, false;
        return;
      }
      if wbuf == null || !taskOk {
        return;
      }
      tasks := tasks + [Msg(wbuf.service, wbuf.opcode, wbuf.Payload(), [])];
    }

    /** The I/O thread takes a task and runs send_ntf_pdu. */
    method RunTask(i: nat, env: Env)
      requires Valid() && i < |tasks|
      modifies `tasks, ioState
      ensures Valid()
      ensures View() == SendNotification(old(View()).(tasks := Without(old(tasks), i)), old(tasks)[i], env)
    {
      var m := tasks[i];
      tasks := Without(tasks, i);
      if !sendPdu {
        return;
      }
      SendPdu(m, env);
    }

    /** A driver event, as device_init_notify sees it. */
    method HotPlugEvent(event: HotPlug)
      requires Valid()
      modifies `log, `running, hal, hal.deviceList
      ensures Valid() && View() == HotPlugStep(old(View()), event)
    {
      log := log + Effect(hal.View(), event);
      hal.DeviceInitNotify(event);
      if hal.fault {
        running := false;
      }
    }

    // ---------- the event loop's callbacks ----------

    /** fd_io_out */
    method FdIoOut(env: Env)
      requires Valid()
      modifies `running, ioState
      ensures Valid()
      ensures var (io, res) := Out(old(View()).io, env); View() == old(View()).(io := io, running := res >= 0)
    {
      var res := ioState.StateOut(env);
      running := res >= 0;
    }

    /** fd_io_in when the peer has hung up. */
    method FdIoInHangup(addOk: bool)
      requires Valid()
      modifies `running, ioState
      ensures Valid()
      ensures var (io, res) := InHangup(old(View()).io, addOk); View() == old(View()).(io := io, running := res >= 0)
    {
      var res := ioState.StateInHangup(addOk);
      running := res >= 0;
    }

    /** Any event: the daemon does what the state machine does. */
    method OnEvent(e: Event)
      requires Valid() && Enabled(View(), e)
      requires e.Command? ==> CommandSizesOk(View(), e.cmd, e.env)
      requires e.Notified? ==> SizesOk(e.tunerId, e.n)
      modifies this, serviceHandler, hal, hal.deviceList, ioState
      ensures Valid() && View() == Step(old(View()), e)
    {
      match e
      case Command(cmd, env) => HandlePdu(cmd, env);
      case PeerHangup(addOk) => FdIoInHangup(addOk);
      case ReadFailed => running := false;
      case Writable(env) => FdIoOut(env);
      case SocketError => ioState.StateErr();
      case SocketHup =>
        ioState.StateErr();
        running := false;
      case HotPlugged(event) => HotPlugEvent(event);
      case Notified(tunerId, sourceType, n, ok) => Notify(tunerId, sourceType, n, ok, true);
      case TaskRun(i, env) => RunTask(i, env);
    }
  }

  lemma ListPayloadIs(rs: List32<Record>)
    requires AllReadable(rs)
    ensures ListPayload(rs) == U32Bytes(|rs|) + AppendedRecords(rs)
    ensures |ListPayload(rs)| == 4 + |AppendedRecords(rs)|
  {
    var n: u32 := |rs| % TWO32;
    assert n == |rs|;
  }

  lemma TunersDoNotWrap(slots: seq<DeviceInfo>)
    requires |slots| <= MAX_DEVICE_NUM
    ensures NoWrap(TunerRecords(slots))
  {
    var rs := TunerRecords(slots);
    ShortTuners(slots);
    TunersLength(rs);
    WrittenFitsReserved(rs);
    TunersHaveNoSlack(rs);
  }
}
