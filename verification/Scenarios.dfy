/**
 Runs from start-up that show where the daemon and its intent part: for every device id that a client can
 name, and every stream.
 */
module Scenarios {
  import opened Base
  import opened Protocol
  import opened Wire
  import opened Records
  import opened PduBuffer
  import opened SetSourceReply
  import opened DtvMessages
  import opened TunerIds
  import opened Dtv
  import opened DeviceTable
  import opened SendQueue
  import opened Services
  import opened Runs
  import opened Guarantees
  import opened Faults

  // ---------- commands ----------

  const REGISTER_DTV := Pdu(SERVICE_REGISTRY, OPCODE_REGISTER_MODULE, [SERVICE_DTV])
  const UNREGISTER_DTV := Pdu(SERVICE_REGISTRY, OPCODE_UNREGISTER_MODULE, [SERVICE_DTV])

  /** SET_SOURCE with the id of a device as GET_TUNERS prints it. */
  function SourceCommand(id: i32): Pdu {
    Pdu(SERVICE_DTV, OPCODE_SET_SOURCE, EncodeFields(SourceFields(PrintId(id), 0)))
  }

  function Plug(kind: EventKind, id: i32): Event {
    HotPlugged(HotPlug(kind, id, TunerInput))
  }

  /** The ids that survive printing and parsing, see TunerIds.IdReturnsIff. */
  predicate Nameable(id: i32) {
    id >= 0 && !StartsWith10(id)
  }

  /** Memory and event loop play along. */
  predicate Calm(env: CommandEnv) {
    env.memoryOk && env.errorMemoryOk && env.send.addOk
  }

  /** The driver offers this stream, closes what it is told to close, and answers so to the open. */
  predicate Offers(env: CommandEnv, stream: i32, openResult: int) {
    env.answers == Answers(Some([StreamConfig(IndependentVideoSource, stream)]), 0, openResult)
  }

  // ---------- single steps ----------

  ghost predicate Ready(s: State) {
    Core(s) && s.running && s.io.connected && EPOLLIN in s.io.mask
  }

  lemma SendStaysReady(io: Io, m: Msg, env: Env)
    ensures var io' := Send(io, m, env).0; io'.connected == io.connected && io.mask <= io'.mask
  {
  }

  /** A command whose reply can be sent leaves the daemon ready for the next one. */
  lemma CommandStep(s: State, cmd: Pdu, env: CommandEnv)
    requires Ready(s) && Calm(env) && !Faulted(Dispatch(s, cmd, env).0)
    ensures var s', (s1, status) := Step(s, Command(cmd, env)), Dispatch(s, cmd, env);
            && Ready(s') && s'.hal == s1.hal && s'.dtvSend == s1.dtvSend
            && s'.handled == s.handled + [Handled(cmd, status)]
            && (status == ERROR_NONE ==> s'.io == s1.io)
  {
    StepKeepsCore(s, Command(cmd, env));
    CommandReplies(s, cmd, env);
    DispatchResponds(s, cmd, env);
    SendStaysReady(s.io, ReplyTo(s, cmd, env), env.send);
  }

  lemma NamesDtv(cmd: Pdu)
    requires cmd.data == [SERVICE_DTV]
    ensures ReadService(cmd) == Some(SERVICE_DTV)
  {
    EncodeOne(C(SERVICE_DTV));
    ReadIff([C(SERVICE_DTV)], [], "C", cmd.data);
    assert FormatOf([C(SERVICE_DTV)]) == "C";
    assert cmd.data + [] == cmd.data;
  }

  lemma RegistryDispatch(s: State, cmd: Pdu, env: CommandEnv)
    requires Lifecycle(s) && cmd.service == SERVICE_REGISTRY
    ensures cmd.opcode == OPCODE_REGISTER_MODULE ==> Dispatch(s, cmd, env) == HandleRegister(s, cmd, env)
    ensures cmd.opcode == OPCODE_UNREGISTER_MODULE ==> Dispatch(s, cmd, env) == HandleUnregister(s, cmd, env)
  {
    RegistryOpcodes(cmd.opcode);
  }

  lemma RegisterLeavesHal(s: State, cmd: Pdu, env: CommandEnv)
    requires Lifecycle(s) && !s.dtvSend && ReadService(cmd) == Some(SERVICE_DTV) && env.memoryOk
    ensures var s1, up := HandleRegister(s, cmd, env).0, env.moduleOk && env.deviceOk;
            && s1.dtvSend == up && SameFaults(s, s1)
            && s1.hal == s.hal.(slots := [], up := up, hooked := s.hal.hooked || up)
  {
    var h := DeviceTable.Init(s.hal, env.moduleOk, env.deviceOk);
    assert Recorded(h.slots) == {} && h.open - {} == h.open;
    VersionLength();
  }

  lemma RegisterStep(s: State, env: CommandEnv)
    requires Ready(s) && !s.dtvSend && Calm(env)
    ensures var s', up := Step(s, Command(REGISTER_DTV, env)), env.moduleOk && env.deviceOk;
            && Ready(s') && s'.dtvSend == up
            && s'.hal == s.hal.(slots := [], up := up, hooked := s.hal.hooked || up)
  {
    NamesDtv(REGISTER_DTV);
    RegistryDispatch(s, REGISTER_DTV, env);
    RegisterLeavesHal(s, REGISTER_DTV, env);
    CommandStep(s, REGISTER_DTV, env);
  }

  lemma UnregisterLeavesHal(s: State, cmd: Pdu, env: CommandEnv)
    requires Lifecycle(s) && TableOk(s) && ReadService(cmd) == Some(SERVICE_DTV) && env.memoryOk
    ensures var (s1, status) := HandleUnregister(s, cmd, env);
            !s1.dtvSend && SameFaults(s, s1) && s1.hal == DeviceTable.Uninit(s.hal) && status == ERROR_NONE
  {
    UnregisterDtvLeaves(s);
  }

  lemma UnregisterStep(s: State, env: CommandEnv)
    requires Ready(s) && Calm(env)
    ensures var s' := Step(s, Command(UNREGISTER_DTV, env));
            && Ready(s') && !s'.dtvSend && s'.hal == DeviceTable.Uninit(s.hal)
            && s'.handled == s.handled + [Handled(UNREGISTER_DTV, ERROR_NONE)]
  {
    NamesDtv(UNREGISTER_DTV);
    RegistryDispatch(s, UNREGISTER_DTV, env);
    UnregisterLeavesHal(s, UNREGISTER_DTV, env);
    CommandStep(s, UNREGISTER_DTV, env);
  }

  lemma PlugStep(s: State, kind: EventKind, id: i32)
    requires Ready(s) && s.hal.hooked && !ClosesWithoutDevice(s.hal, HotPlug(kind, id, TunerInput))
    ensures var s' := Step(s, Plug(kind, id));
            && Ready(s') && s'.dtvSend == s.dtvSend && s'.handled == s.handled
            && s'.hal == DeviceTable.Notify(s.hal, HotPlug(kind, id, TunerInput))
  {
    StepKeepsCore(s, Plug(kind, id));
    NotifyFaultsIff(s.hal, HotPlug(kind, id, TunerInput));
  }

  lemma SourceDispatch(s: State, id: i32, env: CommandEnv)
    requires Lifecycle(s) && s.dtvSend && Nameable(id)
    ensures ReadSource(SourceCommand(id)).Some? && ParseId(ReadSource(SourceCommand(id)).value) == id
    ensures Dispatch(s, SourceCommand(id), env) == HandleSetSource(s, SourceCommand(id), env)
  {
    SourceReadsBack(SourceCommand(id), PrintId(id), 0);
    IdReturnsIff(id);
    DtvOpcodes(OPCODE_SET_SOURCE);
  }

  /** The reply with a handle can be sent: it is not too long. */
  predicate Sendable(h: Handle) {
    |HandlePayload(h)| <= PDU_MAX_DATA_LENGTH
  }

  function SourceReply(h: Handle): Msg {
    Msg(SERVICE_DTV, OPCODE_SET_SOURCE, HandlePayload(h), Fds(h))
  }

  /** set_source makes the call of get_stream and has its outcome; its reply carries the handle that it reads. */
  lemma SourceLeavesHal(s: State, id: i32, env: CommandEnv)
    requires Lifecycle(s) && TableOk(s) && s.dtvSend && !Faulted(s) && |s.hal.slots| < MAX_DEVICE_NUM
    requires ReadSource(SourceCommand(id)).Some? && ParseId(ReadSource(SourceCommand(id)).value) == id
    requires env.memoryOk && (Grants(s.hal, id, env.answers) ==> Sendable(HandleRead(s.hal, id, env)))
    ensures var (s1, status) := HandleSetSource(s, SourceCommand(id), env);
            && !Faulted(s1) && s1.dtvSend && (s1.hal, status) == DeviceTable.GetStream(s.hal, id, env.answers)
            && (status == ERROR_NONE ==> s1.io == Send(s.io, SourceReply(HandleRead(s.hal, id, env)), env.send).0)
  {
    GetStreamFaultsIff(s.hal, id, env.answers);
  }

  lemma SourceStep(s: State, id: i32, env: CommandEnv)
    requires Ready(s) && s.dtvSend && Nameable(id) && |s.hal.slots| < MAX_DEVICE_NUM
    requires Calm(env) && (Grants(s.hal, id, env.answers) ==> Sendable(HandleRead(s.hal, id, env)))
    ensures var s', (hal, status) := Step(s, Command(SourceCommand(id), env)), DeviceTable.GetStream(s.hal, id, env.answers);
            && Ready(s') && s'.dtvSend && s'.hal == hal
            && s'.handled == s.handled + [Handled(SourceCommand(id), status)]
            && (status == ERROR_NONE ==>
                  s'.io.accepted == s.io.accepted + [SourceReply(HandleRead(s.hal, id, env))])
  {
    SourceDispatch(s, id, env);
    SourceLeavesHal(s, id, env);
    CommandStep(s, SourceCommand(id), env);
  }

  // ---------- runs ----------

  lemma StartIsReady()
    ensures Ready(START_UP)
  {
    StartUpIsCore();
  }

  /** A run, event by event. */
  lemma RunSnoc(s: State, es: seq<Event>, e: Event)
    ensures Run(s, es + [e]) == Step(Run(s, es), e)
  {
    assert (es + [e])[..|es|] == es;
  }

  lemma RunTwo(s: State, a: Event, b: Event)
    ensures Run(s, [a, b]) == Step(Step(s, a), b)
  {
    RunSnoc(s, [], a);
    RunSnoc(s, [a], b);
    assert [] + [a] == [a] && [a] + [b] == [a, b];
  }

  lemma RunThree(s: State, a: Event, b: Event, c: Event)
    ensures Run(s, [a, b, c]) == Step(Step(Step(s, a), b), c)
  {
    RunTwo(s, a, b);
    RunSnoc(s, [a, b], c);
    assert [a, b] + [c] == [a, b, c];
  }

  /** Five events are two after three. */
  lemma RunFive(s: State, a: Event, b: Event, c: Event, d: Event, e: Event)
    ensures Run(s, [a, b, c, d, e]) == Step(Step(Run(s, [a, b, c]), d), e)
  {
    RunSnoc(s, [a, b, c], d);
    RunSnoc(s, [a, b, c, d], e);
    assert [a, b, c] + [d] == [a, b, c, d] && [a, b, c, d] + [e] == [a, b, c, d, e];
  }

  /** DTV is registered and a device is plugged in. */
  lemma PluggedIn(id: i32, env: CommandEnv)
    requires Calm(env) && env.moduleOk && env.deviceOk
    ensures var s := Step(Step(START_UP, Command(REGISTER_DTV, env)), Plug(DeviceAvailable, id));
            && Ready(s) && s.dtvSend
            && s.hal == Hal(true, true, false, [DeviceInfo(id, TunerInput, NO_STREAM)], {})
  {
    StartIsReady();
    RegisterStep(START_UP, env);
    PlugStep(Step(START_UP, Command(REGISTER_DTV, env)), DeviceAvailable, id);
  }

  /** Calls on a table with one device, which offers stream x: it opens, or it does not and the previous one is gone. */
  lemma OneDevice(h: Hal, id: i32, acting: i32, x: i32, env: CommandEnv, openResult: int)
    requires h.up && h.slots == [DeviceInfo(id, TunerInput, acting)] && Offers(env, x, openResult) && x != acting
    requires h.open == if acting == NO_STREAM then {} else {StreamKey(id, acting)}
    ensures DeviceTable.GetStream(h, id, env.answers) ==
            if openResult == 0
            then (h.(slots := [DeviceInfo(id, TunerInput, x)], open := {StreamKey(id, x)}), TV_STATUS_SUCCESS)
            else (h.(open := {}), TV_STATUS_FAIL)
  {
    assert FirstSlot(h.slots, id) == 0;
    assert ChosenStream(env.answers.configs.value) == Some(x);
    assert h.slots[0 := h.slots[0].(acting := x)] == [DeviceInfo(id, TunerInput, x)];
    assert h.open - {StreamKey(id, acting)} == {};
    assert {} + {StreamKey(id, x)} == {StreamKey(id, x)};
  }

  lemma NoDevice(h: Hal, id: i32, x: i32, env: CommandEnv)
    requires h == Hal(true, true, false, [], {}) && Offers(env, x, 0)
    ensures DeviceTable.GetStream(h, id, env.answers) == (h.(open := {StreamKey(id, x)}), TV_STATUS_SUCCESS)
  {
    assert ChosenStream(env.answers.configs.value) == Some(x);
    assert {} + {StreamKey(id, x)} == {StreamKey(id, x)};
  }

  lemma NothingToClose(h: Hal)
    requires h.slots == []
    ensures DeviceTable.Uninit(h) == h
  {
    assert Recorded(h.slots) == {} && h.open - {} == h.open;
  }

  /** DTV is registered, a device is plugged in, and a client has got one of its streams. */
  lemma Acting(id: i32, x: i32, env: CommandEnv)
    requires Nameable(id) && x != NO_STREAM && Calm(env) && env.moduleOk && env.deviceOk
    requires Offers(env, x, 0) && Sendable(env.handle)
    ensures var s := Step(Step(Step(START_UP, Command(REGISTER_DTV, env)), Plug(DeviceAvailable, id)),
                          Command(SourceCommand(id), env));
            && Ready(s) && s.dtvSend
            && s.hal == Hal(true, true, false, [DeviceInfo(id, TunerInput, x)], {StreamKey(id, x)})
  {
    PluggedIn(id, env);
    var s := Step(Step(START_UP, Command(REGISTER_DTV, env)), Plug(DeviceAvailable, id));
    OneDevice(s.hal, id, NO_STREAM, x, env, 0);
    SourceStep(s, id, env);
  }

  /** The stream is asked for again: success, and a handle that nothing has filled in. */
  lemma AskedAgain(s: State, id: i32, x: i32, env: CommandEnv)
    requires Ready(s) && s.dtvSend && s.hal.slots == [DeviceInfo(id, TunerInput, x)]
    requires Nameable(id) && x != NO_STREAM && Calm(env) && Offers(env, x, 0) && Sendable(env.stale)
    ensures var s' := Step(s, Command(SourceCommand(id), env));
            && s'.running && s'.dtvSend && s'.hal == s.hal
            && s'.handled == s.handled + [Handled(SourceCommand(id), ERROR_NONE)]
            && s'.io.accepted == s.io.accepted + [SourceReply(env.stale)]
  {
    assert FirstSlot(s.hal.slots, id) == 0;
    assert ChosenStream(env.answers.configs.value) == Some(x);
    assert DeviceTable.GetStream(s.hal, id, env.answers) == (s.hal, TV_STATUS_SUCCESS);
    SourceStep(s, id, env);
  }

  /** A client asks twice for the same stream: the second answer carries whatever was in memory. */
  lemma StaleHandleIsSent(id: i32, x: i32, e1: CommandEnv, e2: CommandEnv)
    requires Nameable(id) && x != NO_STREAM && Calm(e1) && e1.moduleOk && e1.deviceOk && Calm(e2)
    requires Offers(e1, x, 0) && Offers(e2, x, 0) && Sendable(e1.handle) && Sendable(e2.stale)
    ensures var source := SourceCommand(id);
            var s := Run(START_UP, [Command(REGISTER_DTV, e1), Plug(DeviceAvailable, id), Command(source, e1),
                                    Command(source, e2)]);
            && |s.handled| > 0 && s.handled[|s.handled| - 1] == Handled(source, ERROR_NONE)
            && |s.io.accepted| > 0 && s.io.accepted[|s.io.accepted| - 1] == SourceReply(e2.stale)
  {
    var source := SourceCommand(id);
    var es := [Command(REGISTER_DTV, e1), Plug(DeviceAvailable, id), Command(source, e1)];
    RunThree(START_UP, es[0], es[1], es[2]);
    RunSnoc(START_UP, es, Command(source, e2));
    assert es + [Command(source, e2)]
        == [Command(REGISTER_DTV, e1), Plug(DeviceAvailable, id), Command(source, e1), Command(source, e2)];
    Acting(id, x, e1);
    AskedAgain(Run(START_UP, es), id, x, e2);
  }

  /**
   A client gets a stream, asks for another one that does not open, and asks for the first one again: the daemon
   answers with success, with whatever handle was in memory (here: one that can be sent), and nothing is open.
   */
  lemma GrantedButClosed(id: i32, x: i32, y: i32, openResult: int, e1: CommandEnv, e2: CommandEnv, e3: CommandEnv)
    requires Nameable(id) && x != y && x != NO_STREAM && openResult != 0
    requires Calm(e1) && e1.moduleOk && e1.deviceOk && Calm(e2) && Calm(e3)
    requires Offers(e1, x, 0) && Offers(e2, y, openResult) && Offers(e3, x, 0)
    requires Sendable(e1.handle) && Sendable(e3.stale)
    ensures var source := SourceCommand(id);
            var s := Run(START_UP, [Command(REGISTER_DTV, e1), Plug(DeviceAvailable, id), Command(source, e1),
                                    Command(source, e2), Command(source, e3)]);
            && s.running && s.dtvSend && s.hal.open == {}
            && |s.handled| > 0 && s.handled[|s.handled| - 1] == Handled(source, ERROR_NONE)
            && |s.io.accepted| > 0 && s.io.accepted[|s.io.accepted| - 1] == SourceReply(e3.stale)
  {
    var source := SourceCommand(id);
    var register, plug := Command(REGISTER_DTV, e1), Plug(DeviceAvailable, id);
    RunThree(START_UP, register, plug, Command(source, e1));
    RunFive(START_UP, register, plug, Command(source, e1), Command(source, e2), Command(source, e3));
    Acting(id, x, e1);
    var s1 := Step(Step(Step(START_UP, register), plug), Command(source, e1));
    OneDevice(s1.hal, id, x, y, e2, openResult);
    NotGranted(s1.hal, id, x, y, openResult, e2);
    SourceStep(s1, id, e2);
    AskedAgain(Step(s1, Command(source, e2)), id, x, e3);
  }

  lemma NotGranted(h: Hal, id: i32, x: i32, y: i32, openResult: int, env: CommandEnv)
    requires h.slots == [DeviceInfo(id, TunerInput, x)] && x != y && Offers(env, y, openResult) && openResult != 0
    ensures !Grants(h, id, env.answers)
  {
    assert FirstSlot(h.slots, id) == 0;
    assert ChosenStream(env.answers.configs.value) == Some(y);
  }

  lemma FirstCommand(env: CommandEnv)
    requires Calm(env)
    ensures |Step(START_UP, Command(REGISTER_DTV, env)).handled| == 1
  {
    StartIsReady();
    CommandReplies(START_UP, REGISTER_DTV, env);
  }

  lemma OpenedUnlisted(id: i32, x: i32, env: CommandEnv)
    requires Nameable(id) && Calm(env) && env.moduleOk && env.deviceOk && Offers(env, x, 0)
    requires Sendable(env.handle)
    ensures var s := Step(Step(START_UP, Command(REGISTER_DTV, env)), Command(SourceCommand(id), env));
            && Ready(s) && s.hal == Hal(true, true, false, [], {StreamKey(id, x)})
            && |s.handled| == 2 && s.handled[1] == Handled(SourceCommand(id), ERROR_NONE)
  {
    StartIsReady();
    RegisterStep(START_UP, env);
    FirstCommand(env);
    var s := Step(START_UP, Command(REGISTER_DTV, env));
    NoDevice(s.hal, id, x, env);
    SourceStep(s, id, env);
  }

  /**
   A client asks for a device that was never announced, and the driver opens its stream: the daemon answers with
   success, keeps no record, and the stream is still open when DTV has been unregistered, also with success.
   */
  lemma LostStream(id: i32, x: i32, env: CommandEnv)
    requires Nameable(id) && Calm(env) && env.moduleOk && env.deviceOk && Offers(env, x, 0)
    requires Sendable(env.handle)
    ensures var source := SourceCommand(id);
            var s := Run(START_UP, [Command(REGISTER_DTV, env), Command(source, env), Command(UNREGISTER_DTV, env)]);
            && s.running && !s.dtvSend && s.hal.slots == [] && s.hal.open == {StreamKey(id, x)}
            && |s.handled| == 3
            && s.handled[1] == Handled(source, ERROR_NONE) && s.handled[2] == Handled(UNREGISTER_DTV, ERROR_NONE)
  {
    var register, source, unregister := Command(REGISTER_DTV, env), Command(SourceCommand(id), env), Command(UNREGISTER_DTV, env);
    RunThree(START_UP, register, source, unregister);
    OpenedUnlisted(id, x, env);
    var s := Step(Step(START_UP, register), source);
    NothingToClose(s.hal);
    UnregisterStep(s, env);
  }

  lemma RegisterFailsLater(e1: CommandEnv, e2: CommandEnv)
    requires Calm(e1) && e1.moduleOk && e1.deviceOk && Calm(e2) && !(e2.moduleOk && e2.deviceOk)
    ensures var s := Step(Step(Step(START_UP, Command(REGISTER_DTV, e1)), Command(UNREGISTER_DTV, e1)),
                          Command(REGISTER_DTV, e2));
            Ready(s) && s.hal == Hal(false, true, false, [], {})
  {
    StartIsReady();
    RegisterStep(START_UP, e1);
    var s1 := Step(START_UP, Command(REGISTER_DTV, e1));
    NothingToClose(s1.hal);
    UnregisterStep(s1, e1);
    RegisterStep(Step(s1, Command(UNREGISTER_DTV, e1)), e2);
  }

  lemma LateEvents(s: State, id: i32)
    requires Ready(s) && s.hal == Hal(false, true, false, [], {})
    ensures Faulted(Step(Step(s, Plug(DeviceAvailable, id)), Plug(DeviceUnavailable, id)))
  {
    PlugStep(s, DeviceAvailable, id);
    var s1 := Step(s, Plug(DeviceAvailable, id));
    NotifyFaultsIff(s1.hal, HotPlug(DeviceUnavailable, id, TunerInput));
  }

  /**
   DTV is registered, unregistered, and registered again with a driver that does not come up: an announcement from
   the first driver still fills the table, and its withdrawal is passed to a NULL device.
   */
  lemma WithdrawnWithoutDevice(id: i32, e1: CommandEnv, e2: CommandEnv)
    requires Calm(e1) && e1.moduleOk && e1.deviceOk && Calm(e2) && !(e2.moduleOk && e2.deviceOk)
    ensures Faulted(Run(START_UP, [Command(REGISTER_DTV, e1), Command(UNREGISTER_DTV, e1), Command(REGISTER_DTV, e2),
                                   Plug(DeviceAvailable, id), Plug(DeviceUnavailable, id)]))
  {
    var register, unregister, again := Command(REGISTER_DTV, e1), Command(UNREGISTER_DTV, e1), Command(REGISTER_DTV, e2);
    RunThree(START_UP, register, unregister, again);
    RunFive(START_UP, register, unregister, again, Plug(DeviceAvailable, id), Plug(DeviceUnavailable, id));
    RegisterFailsLater(e1, e2);
    LateEvents(Run(START_UP, [register, unregister, again]), id);
  }

  /** A handle with descriptors, and no memory for its reply. */
  lemma DescriptorsWithoutReply(id: i32, x: i32, e1: CommandEnv, e2: CommandEnv)
    requires Nameable(id) && Calm(e1) && e1.moduleOk && e1.deviceOk
    requires Offers(e2, x, 0) && x != NO_STREAM && TailMissing(e2.handle, e2)
    ensures Faulted(Run(START_UP, [Command(REGISTER_DTV, e1), Plug(DeviceAvailable, id), Command(SourceCommand(id), e2)]))
  {
    var register, plug, source := Command(REGISTER_DTV, e1), Plug(DeviceAvailable, id), SourceCommand(id);
    RunThree(START_UP, register, plug, Command(source, e2));
    PluggedIn(id, e1);
    var s := Step(Step(START_UP, register), plug);
    OneDevice(s.hal, id, NO_STREAM, x, e2, 0);
    SourceDispatch(s, id, e2);
  }

  /** Any GET_PROGRAMS that can be read, when the vendor library answers with fewer subtitle than audio languages. */
  lemma LanguagesReadBehind(cmd: Pdu, e1: CommandEnv, e2: CommandEnv)
    requires Calm(e1) && e1.moduleOk && e1.deviceOk
    requires cmd.service == SERVICE_DTV && cmd.opcode == OPCODE_GET_PROGRAMS && ProgramsFaulty(cmd, e2)
    ensures Faulted(Run(START_UP, [Command(REGISTER_DTV, e1), Command(cmd, e2)]))
  {
    RunTwo(START_UP, Command(REGISTER_DTV, e1), Command(cmd, e2));
    StartIsReady();
    RegisterStep(START_UP, e1);
    var s := Step(START_UP, Command(REGISTER_DTV, e1));
    assert Lookup(cmd.opcode, DtvTable()) == Some(GetPrograms);
    StepFaultsIff(s, Command(cmd, e2));
  }

  /** An event table like that needs no client, nor DTV. */
  lemma LanguagesBroadcast(tunerId: CStr, sourceType: byte, n: Notification, ok: bool)
    requires LanguagesMissing(n)
    ensures Faulted(Run(START_UP, [Notified(Some(tunerId), sourceType, n, ok)]))
  {
    RunSnoc(START_UP, [], Notified(Some(tunerId), sourceType, n, ok));
    assert [] + [Notified(Some(tunerId), sourceType, n, ok)] == [Notified(Some(tunerId), sourceType, n, ok)];
  }

  function Plugs(id: i32, n: nat): (es: seq<Event>)
    ensures |es| == n
  {
    seq(n, _ => Plug(DeviceAvailable, id))
  }

  lemma PlugAdds(s: State, id: i32, other: i32)
    requires Ready(s) && s.hal.hooked && id != other && !Listed(s.hal.slots, other) && |s.hal.slots| < MAX_DEVICE_NUM
    ensures var s' := Step(s, Plug(DeviceAvailable, id));
            && Ready(s') && s'.dtvSend == s.dtvSend && s'.hal.hooked
            && |s'.hal.slots| == |s.hal.slots| + 1 && !Listed(s'.hal.slots, other)
  {
    PlugStep(s, DeviceAvailable, id);
    FirstSlotAfterAppend(s.hal.slots, DeviceInfo(id, TunerInput, NO_STREAM), other);
  }

  lemma {:induction false} PlugsAdd(s: State, id: i32, other: i32, n: nat)
    requires Ready(s) && s.hal.hooked && id != other && !Listed(s.hal.slots, other)
    requires |s.hal.slots| + n <= MAX_DEVICE_NUM
    ensures var s' := Run(s, Plugs(id, n));
            && Ready(s') && s'.dtvSend == s.dtvSend && s'.hal.hooked
            && |s'.hal.slots| == |s.hal.slots| + n && !Listed(s'.hal.slots, other)
  {
    if n == 0 {
    } else {
      PlugsAdd(s, id, other, n - 1);
      assert Plugs(id, n) == Plugs(id, n - 1) + [Plug(DeviceAvailable, id)];
      RunSnoc(s, Plugs(id, n - 1), Plug(DeviceAvailable, id));
      PlugAdds(Run(s, Plugs(id, n - 1)), id, other);
    }
  }

  lemma FullTableFaults(s: State, id: i32, x: i32, env: CommandEnv)
    requires Ready(s) && s.dtvSend && !Listed(s.hal.slots, id) && |s.hal.slots| == MAX_DEVICE_NUM
    requires Nameable(id) && Offers(env, x, 0)
    ensures Faulted(Step(s, Command(SourceCommand(id), env)))
  {
    SourceDispatch(s, id, env);
    assert ChosenStream(env.answers.configs.value) == Some(x);
    GetStreamFaultsIff(s.hal, id, env.answers);
    RepliesLeaveHal(s, SourceCommand(id), env);
  }

  /** With a hundred tuners announced, a stream of a device that was not is recorded behind the array. */
  lemma HundredAndFirst(id: i32, other: i32, x: i32, env: CommandEnv)
    requires Nameable(other) && id != other && Calm(env) && env.moduleOk && env.deviceOk && Offers(env, x, 0)
    ensures Faulted(Run(START_UP, [Command(REGISTER_DTV, env)] + Plugs(id, 100) + [Command(SourceCommand(other), env)]))
  {
    var first := [Command(REGISTER_DTV, env)];
    RunSnoc(START_UP, [], first[0]);
    assert [] + [first[0]] == first;
    StartIsReady();
    RegisterStep(START_UP, env);
    RunConcat(START_UP, first, Plugs(id, 100));
    PlugsAdd(Run(START_UP, first), id, other, 100);
    RunSnoc(START_UP, first + Plugs(id, 100), Command(SourceCommand(other), env));
    FullTableFaults(Run(START_UP, first + Plugs(id, 100)), other, x, env);
  }

  /** The version reply finds no room, and its registration fails: registering succeeds, and its answer stays behind. */
  lemma VersionStalls(env: CommandEnv)
    requires env.memoryOk && env.moduleOk && env.deviceOk && env.send == Env(0, false)
    ensures var s := Run(START_UP, [Command(REGISTER_DTV, env)]);
            s.running && s.dtvSend && s.io.connected && s.io.sendq == [VERSION_REPLY] && Stalled(s.io)
  {
    RunSnoc(START_UP, [], Command(REGISTER_DTV, env));
    assert [] + [Command(REGISTER_DTV, env)] == [Command(REGISTER_DTV, env)];
    StartIsReady();
    NamesDtv(REGISTER_DTV);
    RegistryDispatch(START_UP, REGISTER_DTV, env);
    RegisterLeavesHal(START_UP, REGISTER_DTV, env);
    RegisterSucceedsIff(START_UP, REGISTER_DTV, env);
    RegisterReply(START_UP, REGISTER_DTV, env);
  }
}
