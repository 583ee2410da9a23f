/** The invariant of the daemon, step by step and over every run: replies, services, device table, buffers. */
module Runs {
  import opened Base
  import opened Protocol
  import opened Wire
  import opened Records
  import opened PduBuffer
  import opened SetSourceReply
  import opened DtvMessages
  import opened TunerIds
  import opened Dtv
  import opened DeviceTable
  import opened SendQueue
  import opened Services

  // ---------- replies and notifications among the accepted messages ----------

  predicate IsReply(m: Msg) {
    m.opcode < 0x80
  }

  function Replies(ms: seq<Msg>): seq<Msg> {
    if ms == [] then [] else
      Replies(ms[..|ms| - 1]) + if IsReply(ms[|ms| - 1]) then [ms[|ms| - 1]] else []
  }

  function Notifications(ms: seq<Msg>): seq<Msg> {
    if ms == [] then [] else
      Notifications(ms[..|ms| - 1]) + if IsReply(ms[|ms| - 1]) then [] else [ms[|ms| - 1]]
  }

  lemma OneMore(ms: seq<Msg>, m: Msg)
    ensures Replies(ms + [m]) == Replies(ms) + if IsReply(m) then [m] else []
    ensures Notifications(ms + [m]) == Notifications(ms) + if IsReply(m) then [] else [m]
  {
  }

  /** m is the answer to a handled command: its response, or an error PDU with the handler's status. */
  predicate IsAnswer(h: Handled, m: Msg) {
    if h.status == ERROR_NONE then m.service == h.cmd.service && m.opcode == h.cmd.opcode != OPCODE_ERROR
    else m == Msg(h.cmd.service, OPCODE_ERROR, [h.status], [])
  }

  /** The replies answer the commands one for one and in order; only an abort can leave the last one unanswered. */
  ghost predicate RepliesMatch(s: State) {
    var rs := Replies(s.io.accepted);
    && |rs| <= |s.handled| <= |rs| + 1
    && (s.running ==> |rs| == |s.handled|)
    && forall k :: 0 <= k < |rs| ==> IsAnswer(s.handled[k], rs[k])
  }

  // ---------- the invariant ----------

  ghost predicate Lifecycle(s: State) {
    && s.handlers[SERVICE_REGISTRY] == Some(RegistryHandler)
    && (s.handlers[SERVICE_DTV] == None || s.handlers[SERVICE_DTV] == Some(DtvHandler))
    && (forall v :: 2 <= v < PDU_MAX_NUM_SERVICES ==> s.handlers[v] == None)
    && (s.handlers[SERVICE_DTV].Some? <==> s.dtvSend)
    && (s.dtvSend ==> s.hal.up) && (s.hal.up ==> s.hal.hooked)
    && IdleWithoutDevice(s.hal)
  }

  ghost predicate TableOk(s: State) {
    Table(s.hal) && TableIsHistory(s.hal.slots, s.log)
  }

  ghost predicate Core(s: State) {
    && Lifecycle(s) && TableOk(s)
    && Conserved(s.io) && (s.running ==> Live(s.io) && !Faulted(s))
    && (forall k :: 0 <= k < |s.tasks| ==> !IsReply(s.tasks[k]))
    && RepliesMatch(s)
  }

  predicate SameFaults(s: State, s': State) {
    s'.fault == s.fault && s'.hal.fault == s.hal.fault
  }

  /** Nothing but the services and the device table differs, or one send has been made. */
  ghost predicate Responded(s: State, s': State, cmd: Pdu, status: byte, env: CommandEnv) {
    && s'.tasks == s.tasks && s'.handled == s.handled && s'.running == s.running
    && if status == ERROR_NONE then
         && 0 < cmd.opcode < 0x80
         && |s'.io.accepted| > 0
         && var m := s'.io.accepted[|s'.io.accepted| - 1];
            m.service == cmd.service && m.opcode == cmd.opcode && s'.io == Send(s.io, m, env.send).0
       else s'.io == s.io
  }

  lemma RespondResponds(s: State, cmd: Pdu, payload: seq<byte>, fds: seq<u32>, env: CommandEnv)
    requires 0 < cmd.opcode < 0x80
    ensures var (s', status) := Respond(s, cmd, payload, fds, env);
            Responded(s, s', cmd, status, env) && s' == s.(io := s'.io)
  {
  }

  lemma DtvOpcodes(opcode: byte)
    ensures Lookup(opcode, DtvTable()).Some? ==> 0 < opcode < 0x80
    ensures Lookup(opcode, DtvTable()) == Some(SetSource) <==> opcode == 2
  {
  }

  lemma RegistryOpcodes(opcode: byte)
    ensures Lookup(opcode, RegistryTable()) == if opcode == 1 then Some(RegisterModule)
                                               else if opcode == 2 then Some(UnregisterModule) else None
  {
  }

  // ---------- one command ----------

  lemma VendorResponds(s: State, cmd: Pdu, call: Option<VendorCall>, payload: seq<byte>, env: CommandEnv)
    requires 0 < cmd.opcode < 0x80
    ensures var (s', status) := HandleVendor(s, cmd, call, payload, env);
            Responded(s, s', cmd, status, env) && s' == s.(io := s'.io)
  {
    RespondResponds(s, cmd, payload, [], env);
  }

  lemma GetProgramsResponds(s: State, cmd: Pdu, env: CommandEnv)
    requires 0 < cmd.opcode < 0x80
    ensures var (s', status) := HandleGetPrograms(s, cmd, env);
            Responded(s, s', cmd, status, env) && s' == s.(io := s'.io, fault := s'.fault)
  {
    VendorResponds(s, cmd, GetProgramsCall(cmd), if AllReadable(env.programs) then ListPayload(env.programs) else [], env);
  }

  lemma SendHandleResponds(s: State, cmd: Pdu, handle: Handle, env: CommandEnv)
    requires 0 < cmd.opcode < 0x80
    ensures var (s', status) := SendHandle(s, cmd, handle, env);
            Responded(s, s', cmd, status, env) && s' == s.(io := s'.io, fault := s'.fault)
  {
    RespondResponds(s, cmd, HandlePayload(handle), Fds(handle), env);
  }

  lemma SetSourceResponds(s: State, cmd: Pdu, env: CommandEnv)
    requires 0 < cmd.opcode < 0x80
    ensures var (s', status) := HandleSetSource(s, cmd, env);
            Responded(s, s', cmd, status, env) && s' == s.(io := s'.io, hal := s'.hal, fault := s'.fault)
    ensures HandleSetSource(s, cmd, env).0.hal ==
            match ReadSource(cmd)
            case None => s.hal
            case Some(id) => DeviceTable.GetStream(s.hal, ParseId(id), env.answers).0
  {
    match ReadSource(cmd)
    case None =>
    case Some(id) =>
      SendHandleResponds(s.(hal := DeviceTable.GetStream(s.hal, ParseId(id), env.answers).0), cmd,
                         HandleRead(s.hal, ParseId(id), env), env);
  }

  /** The command reaches set_source with a readable tuner id. */
  predicate ReachesSetSource(s: State, cmd: Pdu) {
    && Lookup(cmd.service, s.handlers) == Some(DtvHandler)
    && Lookup(cmd.opcode, DtvTable()) == Some(SetSource)
    && ReadSource(cmd).Some?
  }

  lemma DtvResponds(s: State, cmd: Pdu, env: CommandEnv)
    ensures var (s', status) := HandleDtv(s, cmd, env);
            && Responded(s, s', cmd, status, env)
            && s' == s.(io := s'.io, hal := s'.hal, fault := s'.fault)
    ensures HandleDtv(s, cmd, env).0.hal ==
            if cmd.opcode == 2 && ReadSource(cmd).Some?
            then DeviceTable.GetStream(s.hal, ParseId(ReadSource(cmd).value), env.answers).0 else s.hal
  {
    DtvOpcodes(cmd.opcode);
    match Lookup(cmd.opcode, DtvTable())
    case None =>
    case Some(command) =>
      match command
      case GetTuners => RespondResponds(s, cmd, ListPayload(TunerRecords(s.hal.slots)), [], env);
      case SetSource => SetSourceResponds(s, cmd, env);
      case StartScan => VendorResponds(s, cmd, StartScanCall(cmd), [], env);
      case StopScan => VendorResponds(s, cmd, StopScanCall(cmd), [], env);
      case ClearCache => VendorResponds(s, cmd, Some(ClearChannelCache), [], env);
      case SetChannel => VendorResponds(s, cmd, SetChannelCall(cmd), AppendedRecord(ChannelRec(env.channel)), env);
      case GetChannels => VendorResponds(s, cmd, GetChannelsCall(cmd), ListPayload(env.channels), env);
      case GetPrograms => GetProgramsResponds(s, cmd, env);
  }

  lemma EmptyTableIsHistory()
    ensures TableIsHistory([], [])
  {
  }

  /** register_dtv either fails and leaves DTV absent, or installs it with its driver; the table is empty. */
  lemma RegisterDtvInstalls(s: State, env: CommandEnv)
    requires Lifecycle(s) && !s.dtvSend
    ensures var (s1, handler) := RegisterDtv(s, env);
            && s1 == s.(hal := s1.hal, log := s1.log, dtvSend := s1.dtvSend) && TableOk(s1) && IdleWithoutDevice(s1.hal) && s1.hal.fault == s.hal.fault
            && (s1.hal.up ==> s1.hal.hooked)
            && (s1.dtvSend <==> handler.Some?) && (handler.Some? ==> handler == Some(DtvHandler) && s1.hal.up)
  {
    EmptyTableIsHistory();
    var h := DeviceTable.Init(s.hal, env.moduleOk, env.deviceOk);
    assert Recorded(h.slots) == {};
  }

  /** What register_module does once register_dtv has succeeded. */
  lemma InstalledResponds(s: State, s1: State, cmd: Pdu, env: CommandEnv)
    requires Lifecycle(s) && 0 < cmd.opcode < 0x80
    requires s1 == s.(hal := s1.hal, log := s1.log, dtvSend := true)
    requires s1.hal.up && s1.hal.hooked
    ensures var (s', status) := Respond(s1.(handlers := s.handlers[SERVICE_DTV := Some(DtvHandler)]),
                                        cmd, U32Bytes(PROTOCOL_VERSION), [], env);
            && Responded(s, s', cmd, status, env) && Lifecycle(s') && SameFaults(s1, s')
            && s'.dtvSend && s'.hal == s1.hal && s'.log == s1.log && (env.memoryOk ==> status == ERROR_NONE)
  {
    VersionLength();
    RespondResponds(s1.(handlers := s.handlers[SERVICE_DTV := Some(DtvHandler)]), cmd, U32Bytes(PROTOCOL_VERSION), [], env);
  }

  lemma RegisterResponds(s: State, cmd: Pdu, env: CommandEnv)
    requires Lifecycle(s) && TableOk(s) && 0 < cmd.opcode < 0x80
    ensures var (s', status) := HandleRegister(s, cmd, env);
            && Responded(s, s', cmd, status, env) && Lifecycle(s') && TableOk(s') && SameFaults(s, s')
            && (status == ERROR_NONE <==> !s.dtvSend && s'.dtvSend)
  {
    if ReadService(cmd) == Some(SERVICE_DTV) && !s.dtvSend && env.memoryOk {
      RegisterDtvInstalls(s, env);
      var (s1, handler) := RegisterDtv(s, env);
      if handler.Some? {
        InstalledResponds(s, s1, cmd, env);
      }
    }
  }

  /** Exactly when a client gets DTV registered: it names the service, DTV is absent, and the driver comes up. */
  lemma RegisterSucceedsIff(s: State, cmd: Pdu, env: CommandEnv)
    requires Lifecycle(s)
    ensures HandleRegister(s, cmd, env).1 == ERROR_NONE <==>
            ReadService(cmd) == Some(SERVICE_DTV) && !s.dtvSend && env.memoryOk && env.moduleOk && env.deviceOk
  {
  }

  /** Unregistering succeeds whenever it names DTV, even if DTV is absent; afterwards DTV is absent. */
  lemma UnregisterSucceedsIff(s: State, cmd: Pdu, env: CommandEnv)
    requires Lifecycle(s)
    ensures HandleUnregister(s, cmd, env).1 == ERROR_NONE <==> ReadService(cmd) == Some(SERVICE_DTV) && env.memoryOk
    ensures HandleUnregister(s, cmd, env).0.dtvSend <==> s.dtvSend && HandleUnregister(s, cmd, env).1 != ERROR_NONE
  {
  }

  lemma VersionLength()
    ensures |U32Bytes(PROTOCOL_VERSION)| <= PDU_MAX_DATA_LENGTH
  {
  }

  /** unregister_dtv never misses its driver: without one, no slot records a stream. */
  lemma UnregisterDtvLeaves(s: State)
    requires Lifecycle(s) && TableOk(s)
    ensures var s1 := UnregisterDtv(s);
            TableOk(s1) && SameFaults(s, s1) && s1 == s.(hal := s.hal.(open := s1.hal.open), dtvSend := false)
  {
    assert !s.hal.up ==> Recorded(s.hal.slots) == {};
  }

  lemma UnregisterResponds(s: State, cmd: Pdu, env: CommandEnv)
    requires Lifecycle(s) && TableOk(s) && 0 < cmd.opcode < 0x80
    ensures var (s', status) := HandleUnregister(s, cmd, env);
            && Responded(s, s', cmd, status, env) && Lifecycle(s') && TableOk(s') && SameFaults(s, s')
            && (s'.dtvSend ==> s.dtvSend)
  {
    if ReadService(cmd) == Some(SERVICE_DTV) && env.memoryOk {
      UnregisterDtvLeaves(s);
      RespondResponds(UnregisterDtv(s).(handlers := s.handlers[SERVICE_DTV := None]), cmd, [], [], env);
    }
  }

  lemma GetStreamKeepsTable(s: State, id: i32, a: DeviceTable.Answers)
    requires TableOk(s)
    ensures TableOk(s.(hal := DeviceTable.GetStream(s.hal, id, a).0))
    ensures var h := DeviceTable.GetStream(s.hal, id, a).0;
            h.up == s.hal.up && h.hooked == s.hal.hooked && (!h.up ==> h.slots == s.hal.slots)
  {
    GetStreamKeepsIds(s.hal, id, a);
    var h := DeviceTable.GetStream(s.hal, id, a).0;
    assert |Ids(h.slots)| == |Ids(s.hal.slots)|;
  }

  /** Every command either sends one response and succeeds, or sends nothing and fails; the services stay in order. */
  lemma DispatchResponds(s: State, cmd: Pdu, env: CommandEnv)
    requires Lifecycle(s) && TableOk(s)
    ensures var (s', status) := Dispatch(s, cmd, env);
            Responded(s, s', cmd, status, env) && Lifecycle(s') && TableOk(s')
  {
    match Lookup(cmd.service, s.handlers)
    case None =>
    case Some(handler) =>
      match handler
      case RegistryHandler =>
        RegistryOpcodes(cmd.opcode);
        if cmd.opcode == 1 { RegisterResponds(s, cmd, env); }
        if cmd.opcode == 2 { UnregisterResponds(s, cmd, env); }
      case DtvHandler =>
        DtvResponds(s, cmd, env);
        if cmd.opcode == 2 && ReadSource(cmd).Some? {
          GetStreamKeepsTable(s, ParseId(ReadSource(cmd).value), env.answers);
        }
  }

  /** A command without a handler, or a handler without that opcode, is refused and changes nothing. */
  lemma UnsupportedIsRefused(s: State, cmd: Pdu, env: CommandEnv)
    requires Lifecycle(s)
    requires if cmd.service == SERVICE_REGISTRY then cmd.opcode == 0 || cmd.opcode > 2
             else if cmd.service == SERVICE_DTV && s.dtvSend then cmd.opcode == 0 || cmd.opcode > 8 else true
    ensures Dispatch(s, cmd, env) == (s, ERROR_UNSUPPORTED)
  {
    RegistryOpcodes(cmd.opcode);
    assert cmd.opcode == 0 || cmd.opcode > 8 ==> Lookup(cmd.opcode, DtvTable()).None?;
  }

  /** A message is accepted: the invariants of the queue hold on, and it is filed as a reply or a notification. */
  lemma SendFiles(io: Io, m: Msg, env: Env)
    requires Conserved(io) && Live(io)
    ensures var io' := Send(io, m, env).0;
            && Conserved(io') && Live(io') && io'.accepted == io.accepted + [m]
            && Replies(io'.accepted) == Replies(io.accepted) + (if IsReply(m) then [m] else [])
            && Notifications(io'.accepted) == Notifications(io.accepted) + (if IsReply(m) then [] else [m])
  {
    SendKeeps(io, m, env);
    OneMore(io.accepted, m);
  }

  lemma ReplyAppends(s: State, s': State, h: Handled, m: Msg)
    requires RepliesMatch(s) && s.running && IsAnswer(h, m)
    requires s'.handled == s.handled + [h] && Replies(s'.io.accepted) == Replies(s.io.accepted) + [m]
    ensures RepliesMatch(s')
  {
  }

  /** The message a command leaves on the queue, if it leaves one. */
  ghost function ReplyTo(s: State, cmd: Pdu, env: CommandEnv): Msg {
    var (s1, status) := Dispatch(s, cmd, env);
    if status != ERROR_NONE then Msg(cmd.service, OPCODE_ERROR, [status], [])
    else if |s1.io.accepted| > 0 then s1.io.accepted[|s1.io.accepted| - 1]
    else Msg(0, 0, [], [])
  }

  /** A command is handled: exactly its reply is accepted, unless the daemon aborts before it can be queued. */
  lemma CommandReplies(s: State, cmd: Pdu, env: CommandEnv)
    requires Core(s) && s.running
    ensures var s', m := HandleCommand(s, cmd, env), ReplyTo(s, cmd, env);
            && IsAnswer(Handled(cmd, Dispatch(s, cmd, env).1), m) && IsReply(m)
            && (s'.io == Send(s.io, m, env.send).0 || (s'.io == s.io && !s'.running))
            && s'.handled == s.handled + [Handled(cmd, Dispatch(s, cmd, env).1)] && s'.tasks == s.tasks
            && s'.handlers == Dispatch(s, cmd, env).0.handlers && s'.dtvSend == Dispatch(s, cmd, env).0.dtvSend
            && s'.hal == Dispatch(s, cmd, env).0.hal && s'.log == Dispatch(s, cmd, env).0.log
            && s'.fault == Dispatch(s, cmd, env).0.fault && (s'.running ==> !Faulted(s'))
  {
    DispatchResponds(s, cmd, env);
  }

  lemma RepliesLeaveHal(s: State, cmd: Pdu, env: CommandEnv)
    ensures HandleCommand(s, cmd, env).hal == Dispatch(s, cmd, env).0.hal
  {
  }

  lemma CommandKeepsCore(s: State, cmd: Pdu, env: CommandEnv)
    requires Core(s) && s.running
    ensures Core(HandleCommand(s, cmd, env))
  {
    var s', m := HandleCommand(s, cmd, env), ReplyTo(s, cmd, env);
    DispatchResponds(s, cmd, env);
    CommandReplies(s, cmd, env);
    if s'.io != s.io {
      SendFiles(s.io, m, env.send);
      ReplyAppends(s, s', Handled(cmd, Dispatch(s, cmd, env).1), m);
    } else if s'.io == Send(s.io, m, env.send).0 {
      SendFiles(s.io, m, env.send);
    }
  }

  // ---------- every step, every run ----------

  /** A change of the queue that accepts no message, or of whether the daemon runs, keeps everything. */
  lemma QueueStepKeepsCore(s: State, io: Io, running: bool)
    requires Core(s) && Conserved(io) && io.accepted == s.io.accepted
    requires running ==> s.running && Live(io)
    ensures Core(s.(io := io, running := running))
  {
  }

  lemma TaskKeepsCore(s: State, i: nat, env: Env)
    requires Core(s) && s.running && i < |s.tasks|
    ensures Core(SendNotification(s.(tasks := Without(s.tasks, i)), s.tasks[i], env))
  {
    if s.dtvSend {
      SendFiles(s.io, s.tasks[i], env);
    }
  }

  lemma HotPlugKeepsCore(s: State, e: HotPlug)
    requires Core(s) && s.running
    ensures Core(HotPlugStep(s, e))
  {
    NotifyFollowsHistory(s.hal, e, s.log);
    NotifyKeepsTable(s.hal, e);
  }

  lemma StepKeepsCore(s: State, e: Event)
    requires Core(s)
    ensures Core(Step(s, e))
  {
    if Enabled(s, e) {
      match e
      case Command(cmd, env) => CommandKeepsCore(s, cmd, env);
      case PeerHangup(addOk) =>
        InHangupKeeps(s.io, addOk);
        var (io, res) := InHangup(s.io, addOk);
        QueueStepKeepsCore(s, io, res >= 0);
      case ReadFailed => QueueStepKeepsCore(s, s.io, false);
      case Writable(env) =>
        OutKeeps(s.io, env);
        var (io, res) := Out(s.io, env);
        QueueStepKeepsCore(s, io, res >= 0);
      case SocketError => QueueStepKeepsCore(s, Close(s.io), s.running);
      case SocketHup => QueueStepKeepsCore(s, Close(s.io), false);
      case HotPlugged(event) => HotPlugKeepsCore(s, event);
      case Notified(tunerId, sourceType, n, ok) => NotificationQueued(s, tunerId, sourceType, n, ok);
      case TaskRun(i, env) => TaskKeepsCore(s, i, env);
    }
  }

  lemma NotificationQueued(s: State, tunerId: Option<CStr>, sourceType: byte, n: Notification, ok: bool)
    requires Core(s)
    ensures Core(QueueNotification(s, tunerId, sourceType, n, ok))
  {
  }

  lemma NotifyKeepsTable(h: Hal, e: HotPlug)
    requires Table(h)
    ensures var h' := DeviceTable.Notify(h, e);
            Table(h') && h'.up == h.up && h'.hooked == h.hooked && (IdleWithoutDevice(h) ==> IdleWithoutDevice(h'))
  {
  }

  lemma StartUpIsCore()
    ensures Core(START_UP)
  {
  }

  lemma {:induction false} RunConcat(s: State, es: seq<Event>, fs: seq<Event>)
    ensures Run(s, es + fs) == Run(Run(s, es), fs)
  {
    if fs == [] {
      assert es + fs == es;
    } else {
      var n := |fs| - 1;
      RunConcat(s, es, fs[..n]);
      assert (es + fs)[..|es + fs| - 1] == es + fs[..n];
    }
  }

  lemma {:induction false} RunFrom(s: State, es: seq<Event>)
    requires Core(s)
    ensures Core(Run(s, es))
  {
    if es == [] {
    } else {
      RunFrom(s, es[..|es| - 1]);
      StepKeepsCore(Run(s, es[..|es| - 1]), es[|es| - 1]);
    }
  }

  /** The invariant holds in every reachable state. */
  lemma {:induction false} RunKeepsCore(es: seq<Event>)
    ensures Core(Run(START_UP, es))
  {
    StartUpIsCore();
    RunFrom(START_UP, es);
  }

  /**
   Over every run, with notifications interleaved in any way: the replies on the send queue answer the
   commands one for one and in order, until the daemon stops.
   */
  lemma {:induction false} OneReplyPerCommand(es: seq<Event>)
    ensures var s := Run(START_UP, es); var rs := Replies(s.io.accepted);
            && (s.running ==> |rs| == |s.handled|) && |rs| <= |s.handled| <= |rs| + 1
            && forall k :: 0 <= k < |rs| ==> IsAnswer(s.handled[k], rs[k])
  {
    RunKeepsCore(es);
  }

  /** Over every run the buffers accepted are the finished ones followed by the queued ones; each finished one is freed once. */
  lemma {:induction false} BuffersConserved(es: seq<Event>)
    ensures var io := Run(START_UP, es).io; io.accepted == io.done + io.sendq && io.destroyed == io.done
  {
    RunKeepsCore(es);
  }

  /**
   Over every run the Registry handler stays, no unknown service gains a handler, DTV's handler and callback go
   together, and while DTV is installed there is a driver.
   */
  lemma {:induction false} ServicesStayInOrder(es: seq<Event>)
    ensures Lifecycle(Run(START_UP, es))
  {
    RunKeepsCore(es);
  }

  /** Over every run the table is the history of accepted announcements, of tuners only, and within its array. */
  lemma {:induction false} TableStaysHistory(es: seq<Event>)
    ensures TableOk(Run(START_UP, es))
  {
    RunKeepsCore(es);
  }
}
