/**
 The daemon as a state machine: command dispatch (src/pdu.c), the Registry service (src/registry.c,
 src/service.c), the DTV service (src/dtv_io.c) and the I/O events around them (src/io.c).
 Outcomes of allocations, of the drivers and of the event loop are inputs of each event.
 */
module Services {
  import opened Base
  import opened Protocol
  import opened Wire
  import opened Records
  import opened PduBuffer
  import opened SetSourceReply
  import opened DtvMessages
  import opened Dtv
  import opened TunerIds
  import opened DeviceTable
  import opened SendQueue

  datatype Pdu = Pdu(service: byte, opcode: byte, data: seq<byte>)

  datatype Handler = RegistryHandler | DtvHandler
  datatype RegistryCommand = RegisterModule | UnregisterModule
  datatype DtvCommand =
    GetTuners | SetSource | StartScan | StopScan | ClearCache | SetChannel | GetChannels | GetPrograms

  ghost predicate AllPrograms(rs: seq<Record>) {
    forall k :: 0 <= k < |rs| ==> rs[k].ProgramRec?
  }

  type HandlerTable = t: seq<Option<Handler>> | |t| == PDU_MAX_NUM_SERVICES
    witness seq(PDU_MAX_NUM_SERVICES, _ => None)

  /** A call into the vendor library, with its arguments. */
  datatype VendorCall =
    | StartScanning(tunerId: CStr, sourceType: byte)
    | StopScanning(tunerId: CStr, sourceType: byte)
    | ClearChannelCache
    | TuneTo(tunerId: CStr, sourceType: byte, number: CStr)
    | ListChannels(tunerId: CStr, sourceType: byte)
    | ListPrograms(tunerId: CStr, sourceType: byte, number: CStr, start: u64, end: u64)

  type ChannelList = rs: List32<Record> | AllOfKind(ChannelKind, rs) && AllReadable(rs) witness []
  type ProgramList = rs: List32<Record> | AllPrograms(rs) witness []
  type Handle = h: NativeHandle | ValidHandle(h) witness NativeHandle(0, 0, 0, [])

  /**
   Everything a command handler does not control: whether the reply and the error PDU can be
   allocated, the event loop and transport during its one send, the outcome of tv_input_hal_init,
   what the driver and the vendor library answer. handle is what open_stream fills in, stale what
   set_source's stream structure holds when nothing does. vendor is the status of each vendor call;
   channel, channels and programs are what the one that is made hands over.
   */
  datatype CommandEnv = CommandEnv(
    memoryOk: bool, errorMemoryOk: bool, send: Env, moduleOk: bool, deviceOk: bool,
    answers: Answers, handle: Handle, stale: Handle,
    vendor: VendorCall -> byte, channel: Channel, channels: ChannelList, programs: ProgramList)

  datatype Notification =
    | ChannelScanned(channel: Channel)
    | ScanComplete
    | ScanStopped
    | EitBroadcasted(channel: Channel, programs: ProgramList)

  /** A command that was handled, with the status of its handler. */
  datatype Handled = Handled(cmd: Pdu, status: byte)

  /**
   handlers: g_service_handler. dtvSend: DTV's send callback is set. tasks: notifications on their way to
   the I/O thread. running: neither aborted nor exited. fault: set_source wrote to a tail that was not
   allocated, or subtitle languages were read behind the last one. handled and log are history: the commands so far, and the changes of the device table
   since it was last emptied.
   */
  datatype State = State(
    handlers: HandlerTable, dtvSend: bool, hal: Hal, io: Io, tasks: seq<Msg>,
    running: bool, fault: bool, handled: seq<Handled>, log: seq<TableOp>)

  /** The daemon has called a NULL device, or read or written outside its memory; the model ends the run there. */
  predicate Faulted(s: State) {
    s.hal.fault || s.fault
  }

  // ---------- src/pdu.c ----------

  /** handle_pdu up to the call: the handler for a value, if it is in range and there is one. */
  function Lookup<H>(value: byte, table: seq<Option<H>>): Option<H> {
    if value >= |table| then None else table[value]
  }

  /** A designated initializer: these entries, and NULL for the other values. */
  function TableOf<H>(entries: seq<Option<H>>): (table: seq<Option<H>>)
    requires |entries| <= PDU_MAX_NUM_OPCODES
    ensures |table| == PDU_MAX_NUM_OPCODES
    ensures forall k :: 0 <= k < |table| ==> table[k] == if k < |entries| then entries[k] else None
  {
    entries + seq(PDU_MAX_NUM_OPCODES - |entries|, _ => None)
  }

  function RegistryTable(): seq<Option<RegistryCommand>> {
    TableOf([None, Some(RegisterModule), Some(UnregisterModule)])
  }

  function DtvTable(): seq<Option<DtvCommand>> {
    TableOf([None, Some(GetTuners), Some(SetSource), Some(StartScan), Some(StopScan), Some(ClearCache),
             Some(SetChannel), Some(GetChannels), Some(GetPrograms)])
  }

  // ---------- replies ----------

  /** create_pdu_wbuf, init_pdu, append_to_pdu and send_pdu of a response; its registration result is ignored. */
  function Respond(s: State, cmd: Pdu, payload: seq<byte>, fds: seq<u32>, env: CommandEnv): (State, byte) {
    if !env.memoryOk || |payload| > PDU_MAX_DATA_LENGTH then (s, ERROR_NOMEM)
    else (s.(io := Send(s.io, Msg(cmd.service, cmd.opcode, payload, fds), env.send).0), ERROR_NONE)
  }

  /** Count and records, as get_tuners, get_channels and get_programs append them. */
  ghost function ListPayload(rs: seq<Record>): seq<byte>
    requires AllReadable(rs)
  {
    U32Bytes(|rs| % TWO32) + AppendedRecords(rs)
  }

  // ---------- the DTV service ----------

  /** The tuner id and source type that most DTV commands carry. */
  function ReadTuner(cmd: Pdu): Option<(CStr, byte)> {
    OnlyEncodingsRead("0C", cmd.data);
    match ReadFields("0C", cmd.data)
    case None => None
    case Some((h, _)) =>
      assert Letter(h[0]) == "0C"[0] && Letter(h[1]) == "0C"[1];
      Some((h[0].s, h[1].c))
  }

  function ReadSource(cmd: Pdu): Option<CStr> {
    match ReadTuner(cmd)
    case None => None
    case Some((id, _)) => Some(id)
  }

  /** The vendor call that a command makes, if its arguments can be read. */
  function StartScanCall(cmd: Pdu): Option<VendorCall> {
    match ReadTuner(cmd)
    case None => None
    case Some((id, sourceType)) => Some(StartScanning(id, sourceType))
  }

  function StopScanCall(cmd: Pdu): Option<VendorCall> {
    match ReadTuner(cmd)
    case None => None
    case Some((id, sourceType)) => Some(StopScanning(id, sourceType))
  }

  function SetChannelCall(cmd: Pdu): Option<VendorCall> {
    OnlyEncodingsRead("0C0", cmd.data);
    match ReadFields("0C0", cmd.data)
    case None => None
    case Some((h, _)) =>
      assert forall k :: 0 <= k < 3 ==> Letter(h[k]) == "0C0"[k];
      Some(TuneTo(h[0].s, h[1].c, h[2].s))
  }

  function GetChannelsCall(cmd: Pdu): Option<VendorCall> {
    match ReadTuner(cmd)
    case None => None
    case Some((id, sourceType)) => Some(ListChannels(id, sourceType))
  }

  function GetProgramsCall(cmd: Pdu): Option<VendorCall> {
    OnlyEncodingsRead("0C0LL", cmd.data);
    match ReadFields("0C0LL", cmd.data)
    case None => None
    case Some((h, _)) =>
      assert forall k :: 0 <= k < 5 ==> Letter(h[k]) == "0C0LL"[k];
      Some(ListPrograms(h[0].s, h[1].c, h[2].s, h[3].l, h[4].l))
  }

  /** The descriptors of the handle go into the tail before the allocation is checked. */
  predicate TailMissing(handle: Handle, env: CommandEnv) {
    handle.numFds != 0 && !env.memoryOk
  }

  /** The handle that set_source reads after a successful call: nothing fills it in when the stream is acting already. */
  function HandleRead(h: Hal, id: i32, env: CommandEnv): Handle {
    match Requested(env.answers)
    case None => env.stale
    case Some(stream) => if AlreadyActing(h, id, stream) then env.stale else env.handle
  }

  /** set_source once the stream is there. */
  function SendHandle(s: State, cmd: Pdu, handle: Handle, env: CommandEnv): (State, byte) {
    if TailMissing(handle, env) then (s.(fault := true), ERROR_NOMEM)
    else Respond(s, cmd, HandlePayload(handle), Fds(handle), env)
  }

  /** set_source */
  function HandleSetSource(s: State, cmd: Pdu, env: CommandEnv): (State, byte) {
    match ReadSource(cmd)
    case None => (s, ERROR_FAIL)
    case Some(id) =>
      var (hal, status) := DeviceTable.GetStream(s.hal, ParseId(id), env.answers);
      if hal.fault then (s.(hal := hal), ERROR_FAIL)
      else if status != TV_STATUS_SUCCESS then (s.(hal := hal), status)
      else SendHandle(s.(hal := hal), cmd, HandleRead(s.hal, ParseId(id), env), env)
  }

  /** A command whose work is done by the vendor library: arguments, vendor call, response. */
  function HandleVendor(s: State, cmd: Pdu, call: Option<VendorCall>, payload: seq<byte>, env: CommandEnv): (State, byte) {
    if call.None? then (s, ERROR_FAIL)
    else if env.vendor(call.value) != TV_STATUS_SUCCESS then (s, env.vendor(call.value))
    else Respond(s, cmd, payload, [], env)
  }

  predicate Agrees(call: Option<VendorCall>, env: CommandEnv) {
    call.Some? && env.vendor(call.value) == TV_STATUS_SUCCESS
  }

  /** get_programs: the sizes come first, and read lang_num subtitle languages of every program. */
  ghost function HandleGetPrograms(s: State, cmd: Pdu, env: CommandEnv): (State, byte) {
    if Agrees(GetProgramsCall(cmd), env) && !AllReadable(env.programs) then (s.(fault := true), ERROR_NOMEM)
    else HandleVendor(s, cmd, GetProgramsCall(cmd), if AllReadable(env.programs) then ListPayload(env.programs) else [], env)
  }

  /** dtv_handler */
  ghost function HandleDtv(s: State, cmd: Pdu, env: CommandEnv): (State, byte) {
    match Lookup(cmd.opcode, DtvTable())
    case None => (s, ERROR_UNSUPPORTED)
    case Some(command) =>
      match command
      case GetTuners => Respond(s, cmd, ListPayload(TunerRecords(s.hal.slots)), [], env)
      case SetSource => HandleSetSource(s, cmd, env)
      case StartScan => HandleVendor(s, cmd, StartScanCall(cmd), [], env)
      case StopScan => HandleVendor(s, cmd, StopScanCall(cmd), [], env)
      case ClearCache => HandleVendor(s, cmd, Some(ClearChannelCache), [], env)
      case SetChannel => HandleVendor(s, cmd, SetChannelCall(cmd), AppendedRecord(ChannelRec(env.channel)), env)
      case GetChannels => HandleVendor(s, cmd, GetChannelsCall(cmd), ListPayload(env.channels), env)
      case GetPrograms => HandleGetPrograms(s, cmd, env)
  }

  /** register_dtv: None when the driver does not come up. dtv_init always succeeds. */
  function RegisterDtv(s: State, env: CommandEnv): (State, Option<Handler>) {
    var s1 := s.(hal := DeviceTable.Init(s.hal, env.moduleOk, env.deviceOk), log := []);
    if !s1.hal.up then (s1.(hal := DeviceTable.Uninit(s1.hal)), None)
    else (s1.(dtvSend := true), Some(DtvHandler))
  }

  /** unregister_dtv, which always succeeds. */
  function UnregisterDtv(s: State): State {
    s.(hal := DeviceTable.Uninit(s.hal), dtvSend := false)
  }

  // ---------- the Registry service ----------

  function ReadService(cmd: Pdu): Option<byte> {
    OnlyEncodingsRead("C", cmd.data);
    match ReadFields("C", cmd.data)
    case None => None
    case Some((h, _)) => assert Letter(h[0]) == "C"[0]; Some(h[0].c)
  }

  /** register_module; g_register_service has an entry for DTV only. */
  function HandleRegister(s: State, cmd: Pdu, env: CommandEnv): (State, byte) {
    match ReadService(cmd)
    case None => (s, ERROR_PARM_INVALID)
    case Some(service) =>
      if Lookup(service, s.handlers).Some? || service != SERVICE_DTV then (s, ERROR_FAIL)
      else if !env.memoryOk then (s, ERROR_NOMEM)
      else
        var (s1, handler) := RegisterDtv(s, env);
        if handler.None? then (s1, ERROR_FAIL)
        else Respond(s1.(handlers := s.handlers[service := handler]), cmd, U32Bytes(PROTOCOL_VERSION), [], env)
  }

  /** unregister_module; g_unregister_service has an entry for DTV only. */
  function HandleUnregister(s: State, cmd: Pdu, env: CommandEnv): (State, byte) {
    match ReadService(cmd)
    case None => (s, ERROR_PARM_INVALID)
    case Some(service) =>
      if !env.memoryOk then (s, ERROR_NOMEM)
      else if service == SERVICE_REGISTRY then (s, ERROR_FAIL)
      else if service != SERVICE_DTV then (s, ERROR_FAIL)
      else Respond(UnregisterDtv(s).(handlers := s.handlers[service := None]), cmd, [], [], env)
  }

  /** registry_handler */
  function HandleRegistry(s: State, cmd: Pdu, env: CommandEnv): (State, byte) {
    match Lookup(cmd.opcode, RegistryTable())
    case None => (s, ERROR_UNSUPPORTED)
    case Some(command) =>
      match command
      case RegisterModule => HandleRegister(s, cmd, env)
      case UnregisterModule => HandleUnregister(s, cmd, env)
  }

  // ---------- commands ----------

  /** handle_pdu_by_service */
  ghost function Dispatch(s: State, cmd: Pdu, env: CommandEnv): (State, byte) {
    match Lookup(cmd.service, s.handlers)
    case None => (s, ERROR_UNSUPPORTED)
    case Some(handler) =>
      match handler
      case RegistryHandler => HandleRegistry(s, cmd, env)
      case DtvHandler => HandleDtv(s, cmd, env)
  }

  /** send_error_reply: aborts when the PDU cannot be allocated or its registration fails. */
  function SendErrorReply(s: State, service: byte, error: byte, env: CommandEnv): State {
    if !env.errorMemoryOk then s.(running := false) else
    var (io, res) := Send(s.io, Msg(service, OPCODE_ERROR, [error], []), env.send);
    s.(io := io, running := res >= 0)
  }

  /** handle_pdu of src/io.c. */
  ghost function HandleCommand(s: State, cmd: Pdu, env: CommandEnv): State {
    var (s1, status) := Dispatch(s, cmd, env);
    var s2 := if Faulted(s1) then s1.(running := false)
              else if status != ERROR_NONE then SendErrorReply(s1, cmd.service, status, env)
              else s1;
    s2.(handled := s.handled + [Handled(cmd, status)])
  }

  // ---------- notifications ----------

  function NotificationOpcode(n: Notification): byte {
    match n
    case ChannelScanned(_) => OPCODE_CHANNEL_SCANNED
    case ScanComplete => OPCODE_SCANNED_COMPLETE
    case ScanStopped => OPCODE_SCAN_STOPPED
    case EitBroadcasted(_, _) => OPCODE_EIT_BROADCASTED
  }

  /** An event table with a program that has fewer subtitle than audio languages. */
  ghost predicate LanguagesMissing(n: Notification) {
    n.EitBroadcasted? && !AllReadable(n.programs)
  }

  ghost function NotificationPayload(tunerId: CStr, sourceType: byte, n: Notification): seq<byte>
    requires !LanguagesMissing(n)
  {
    match n
    case ChannelScanned(ch) => SourceAndChannel(tunerId, sourceType, ch)
    case ScanComplete => EncodeFields(SourceFields(tunerId, sourceType))
    case ScanStopped => EncodeFields(SourceFields(tunerId, sourceType))
    case EitBroadcasted(ch, progs) => EitPayload(tunerId, sourceType, ch, progs)
  }

  /** The notification callbacks: add up sizes, build the PDU and queue its task; dropped when any step fails. */
  ghost function QueueNotification(s: State, tunerId: Option<CStr>, sourceType: byte, n: Notification, ok: bool): State {
    if tunerId.None? then s
    else if LanguagesMissing(n) then s.(fault := true, running := false)
    else if !ok then s else
    var payload := NotificationPayload(tunerId.value, sourceType, n);
    if |payload| > PDU_MAX_DATA_LENGTH then s
    else s.(tasks := s.tasks + [Msg(SERVICE_DTV, NotificationOpcode(n), payload, [])])
  }

  /** send_ntf_pdu */
  function SendNotification(s: State, m: Msg, env: Env): State {
    if !s.dtvSend then s else s.(io := Send(s.io, m, env).0)
  }

  // ---------- events ----------

  datatype Event =
    | Command(cmd: Pdu, env: CommandEnv)            // a complete command PDU has been read
    | PeerHangup(addOk: bool)                       // recvmsg returned 0
    | ReadFailed                                    // recvmsg failed, or the PDU does not fit
    | Writable(outEnv: Env)
    | SocketError
    | SocketHup
    | HotPlugged(event: HotPlug)
    | Notified(tunerId: Option<CStr>, sourceType: byte, n: Notification, ok: bool)
    | TaskRun(i: nat, taskEnv: Env)

  /** The event loop reports this flag for the descriptor. */
  predicate Watched(io: Io, flag: EpollFlag) {
    io.connected && io.registered.Some? && flag in io.registered.value
  }

  /** The loop reports what it was asked for, errors and hang-ups always; a driver that has our callback may call it. */
  predicate Enabled(s: State, e: Event) {
    s.running &&
    match e
    case Command(_, _) => Watched(s.io, EPOLLIN)
    case PeerHangup(_) => Watched(s.io, EPOLLIN)
    case ReadFailed => Watched(s.io, EPOLLIN)
    case Writable(_) => Watched(s.io, EPOLLOUT)
    case SocketError => s.io.connected
    case SocketHup => s.io.connected
    case HotPlugged(_) => s.hal.hooked
    case Notified(_, _, _, _) => true
    case TaskRun(i, _) => i < |s.tasks|
  }

  /** device_init_notify */
  function HotPlugStep(s: State, e: HotPlug): State {
    var hal := DeviceTable.Notify(s.hal, e);
    s.(hal := hal, log := s.log + Effect(s.hal, e), running := s.running && !hal.fault)
  }

  ghost function Step(s: State, e: Event): State {
    if !Enabled(s, e) then s else
    match e
    case Command(cmd, env) => HandleCommand(s, cmd, env)
    case PeerHangup(addOk) => var (io, res) := InHangup(s.io, addOk); s.(io := io, running := res >= 0)
    case ReadFailed => s.(running := false)
    case Writable(env) => var (io, res) := Out(s.io, env); s.(io := io, running := res >= 0)
    case SocketError => s.(io := Close(s.io))
    case SocketHup => s.(io := Close(s.io), running := false)
    case HotPlugged(event) => HotPlugStep(s, event)
    case Notified(tunerId, sourceType, n, ok) => QueueNotification(s, tunerId, sourceType, n, ok)
    case TaskRun(i, env) => SendNotification(s.(tasks := Without(s.tasks, i)), s.tasks[i], env)
  }

  ghost function Run(s: State, es: seq<Event>): State {
    if es == [] then s else Step(Run(s, es[..|es| - 1]), es[|es| - 1])
  }

  /** The daemon when fd_con_out has returned: init_registry has installed the Registry service. */
  ghost const START_UP: State :=
    State(TableOf([Some(RegistryHandler)]), false,
          Hal(false, false, false, [], {}), STARTED, [], true, false, [], [])
}
