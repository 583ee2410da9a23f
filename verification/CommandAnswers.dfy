/**
 What every command does and what its client is answered, and what every notification carries: by opcode number,
 argument octets, error number and payload octets, in every reachable state.
 */
module CommandAnswers {
  import opened Base
  import opened Wire
  import opened Records
  import opened ProgramLists
  import opened Octets
  import opened PduBuffer
  import opened SetSourceReply
  import opened DtvMessages
  import opened TunerIds
  import opened Dtv
  import opened DeviceTable
  import opened SendQueue
  import opened Services
  import opened Runs
  import opened Guarantees
  import opened Faults

  /**
   One message is put on the send queue: the response with this payload and these descriptors, or, for an error,
   an error PDU. Without memory for the error PDU the daemon stops instead.
   */
  ghost predicate Answered(s: State, s': State, cmd: Pdu, error: byte, payload: seq<byte>, fds: seq<u32>, env: CommandEnv) {
    if error == 0 then
      s'.io.accepted == s.io.accepted + [Msg(cmd.service, cmd.opcode, payload, fds)] && s'.running
    else if env.errorMemoryOk then
      s'.io.accepted == s.io.accepted + [Msg(cmd.service, 0, [error], [])]
    else
      s'.io.accepted == s.io.accepted && !s'.running
  }

  /** The run ends in an access to memory that is not there, and nothing is sent. */
  ghost predicate Lost(s: State, s': State) {
    Faulted(s') && !s'.running && s'.io.accepted == s.io.accepted
  }

  /** The command arrives in a reachable state of the daemon with DTV present. */
  ghost predicate Arrives(s: State, cmd: Pdu, env: CommandEnv) {
    Core(s) && Enabled(s, Command(cmd, env))
  }

  ghost predicate ArrivesAtDtv(s: State, cmd: Pdu, env: CommandEnv) {
    Arrives(s, cmd, env) && cmd.service == 1 && s.dtvSend
  }

  lemma AnsweredAs(s: State, cmd: Pdu, env: CommandEnv, payload: seq<byte>, fds: seq<u32>)
    requires Arrives(s, cmd, env) && !Faulted(Dispatch(s, cmd, env).0)
    requires Dispatch(s, cmd, env).1 == 0 ==>
               Dispatch(s, cmd, env).0.io == Send(s.io, Msg(cmd.service, cmd.opcode, payload, fds), env.send).0
    ensures Answered(s, Step(s, Command(cmd, env)), cmd, Dispatch(s, cmd, env).1, payload, fds, env)
  {
    DispatchResponds(s, cmd, env);
  }

  /** Whether a response of this length can be made. */
  function Made(length: nat, env: CommandEnv): byte {
    if env.memoryOk && length <= 0xFFFF then 0 else 3
  }

  lemma RespondAnswers(s: State, cmd: Pdu, env: CommandEnv, payload: seq<byte>)
    requires Arrives(s, cmd, env) && Dispatch(s, cmd, env) == Respond(s, cmd, payload, [], env)
    ensures Answered(s, Step(s, Command(cmd, env)), cmd, Made(|payload|, env), payload, [], env)
  {
    AnsweredAs(s, cmd, env, payload, []);
  }

  /** A vendor command: the vendor's own status when it refuses. */
  function VendorError(call: VendorCall, length: nat, env: CommandEnv): byte {
    if env.vendor(call) != 0 then env.vendor(call) else Made(length, env)
  }

  lemma VendorAnswers(s: State, cmd: Pdu, env: CommandEnv, call: Option<VendorCall>, payload: seq<byte>)
    requires Arrives(s, cmd, env) && Dispatch(s, cmd, env) == HandleVendor(s, cmd, call, payload, env)
    ensures var error := if call.None? then 1 else VendorError(call.value, |payload|, env);
            Answered(s, Step(s, Command(cmd, env)), cmd, error, payload, [], env)
  {
    AnsweredAs(s, cmd, env, payload, []);
  }

  lemma RefusalAnswers(s: State, cmd: Pdu, env: CommandEnv, error: byte)
    requires Arrives(s, cmd, env) && Dispatch(s, cmd, env).1 == error != 0 && !Faulted(Dispatch(s, cmd, env).0)
    ensures Answered(s, Step(s, Command(cmd, env)), cmd, error, [], [], env)
  {
    AnsweredAs(s, cmd, env, [], []);
  }

  // ---------- reading arguments ----------

  lemma TunerRead(cmd: Pdu, id: CStr, sourceType: byte)
    ensures NamesTuner(cmd.data, id, sourceType) <==> ReadTuner(cmd) == Some((id, sourceType))
  {
    TunerArguments(id, sourceType);
    ReadsPrefix([Z(id), C(sourceType)], "0C", cmd.data);
    OnlyEncodingsRead("0C", cmd.data);
    if ReadTuner(cmd) == Some((id, sourceType)) {
      var h := ReadFields("0C", cmd.data).value.0;
      assert Letter(h[0]) == "0C"[0] && Letter(h[1]) == "0C"[1];
      assert h == [Z(id), C(sourceType)];
    }
  }

  lemma ChannelRead(cmd: Pdu, id: CStr, sourceType: byte, number: CStr)
    ensures NamesChannel(cmd.data, id, sourceType, number) <==> SetChannelCall(cmd) == Some(TuneTo(id, sourceType, number))
  {
    ChannelArguments(id, sourceType, number);
    ReadsPrefix([Z(id), C(sourceType), Z(number)], "0C0", cmd.data);
    OnlyEncodingsRead("0C0", cmd.data);
    if SetChannelCall(cmd) == Some(TuneTo(id, sourceType, number)) {
      var h := ReadFields("0C0", cmd.data).value.0;
      assert forall k :: 0 <= k < 3 ==> Letter(h[k]) == "0C0"[k];
      assert h == [Z(id), C(sourceType), Z(number)];
    }
  }

  lemma ProgramsCallIs(cmd: Pdu, id: CStr, sourceType: byte, number: CStr, start: u64, end: u64)
    ensures GetProgramsCall(cmd) == Some(ListPrograms(id, sourceType, number, start, end))
       <==> ReadFields("0C0LL", cmd.data).Some?
            && ReadFields("0C0LL", cmd.data).value.0 == [Z(id), C(sourceType), Z(number), L(start), L(end)]
  {
    OnlyEncodingsRead("0C0LL", cmd.data);
    if ReadFields("0C0LL", cmd.data).Some? {
      var h := ReadFields("0C0LL", cmd.data).value.0;
      assert forall k :: 0 <= k < 5 ==> Letter(h[k]) == "0C0LL"[k];
      assert h == [Z(h[0].s), C(h[1].c), Z(h[2].s), L(h[3].l), L(h[4].l)];
    }
  }

  lemma ProgramsRead(cmd: Pdu, id: CStr, sourceType: byte, number: CStr, start: u64, end: u64)
    ensures NamesPrograms(cmd.data, id, sourceType, number, start, end)
       <==> GetProgramsCall(cmd) == Some(ListPrograms(id, sourceType, number, start, end))
  {
    ProgramsArguments(id, sourceType, number, start, end);
    ReadsPrefix([Z(id), C(sourceType), Z(number), L(start), L(end)], "0C0LL", cmd.data);
    ProgramsCallIs(cmd, id, sourceType, number, start, end);
  }

  // ---------- the eight commands of DTV ----------

  lemma DtvDispatch(s: State, cmd: Pdu, env: CommandEnv)
    requires Lifecycle(s) && cmd.service == 1 && s.dtvSend
    ensures Dispatch(s, cmd, env) == HandleDtv(s, cmd, env)
    ensures cmd.opcode == 1 ==> Lookup(cmd.opcode, DtvTable()) == Some(GetTuners)
    ensures cmd.opcode == 2 ==> Lookup(cmd.opcode, DtvTable()) == Some(SetSource)
    ensures cmd.opcode == 3 ==> Lookup(cmd.opcode, DtvTable()) == Some(StartScan)
    ensures cmd.opcode == 4 ==> Lookup(cmd.opcode, DtvTable()) == Some(StopScan)
    ensures cmd.opcode == 5 ==> Lookup(cmd.opcode, DtvTable()) == Some(ClearCache)
    ensures cmd.opcode == 6 ==> Lookup(cmd.opcode, DtvTable()) == Some(SetChannel)
    ensures cmd.opcode == 7 ==> Lookup(cmd.opcode, DtvTable()) == Some(GetChannels)
    ensures cmd.opcode == 8 ==> Lookup(cmd.opcode, DtvTable()) == Some(GetPrograms)
    ensures cmd.opcode == 0 || cmd.opcode > 8 ==> Lookup(cmd.opcode, DtvTable()) == None
  {
  }

  /** 1, GET_TUNERS: reads nothing, and answers with a list of one tuner per slot, in table order. */
  lemma GetTunersAnswered(s: State, cmd: Pdu, env: CommandEnv)
    requires ArrivesAtDtv(s, cmd, env) && cmd.opcode == 1
    ensures var rs := TunerRecords(s.hal.slots); var payload := ListPayload(rs);
            && Answered(s, Step(s, Command(cmd, env)), cmd, if env.memoryOk then 0 else 3, payload, [], env)
            && DecodeList(TunerKind, payload) == Some((rs, []))
            && |rs| == |s.hal.slots|
            && (forall k :: 0 <= k < |rs| ==> rs[k] == TunerRec(Tuner(PrintId(s.hal.slots[k].deviceId), [])))
  {
    DtvDispatch(s, cmd, env);
    TunerRecordsListed(s.hal.slots);
    TunerListDecodes(TunerRecords(s.hal.slots));
    ShortTuners(s.hal.slots);
    TunersLength(TunerRecords(s.hal.slots));
    RespondAnswers(s, cmd, env, ListPayload(TunerRecords(s.hal.slots)));
  }

  /**
   2, SET_SOURCE: reads tuner id and source type, and answers error 1 when the driver does not grant a stream of
   the device that the id names, and otherwise with the octets and descriptors of a handle.
   */
  lemma SetSourceAnswered(s: State, cmd: Pdu, env: CommandEnv, id: CStr, sourceType: byte)
    requires ArrivesAtDtv(s, cmd, env) && cmd.opcode == 2 && NamesTuner(cmd.data, id, sourceType)
    ensures var s', d := Step(s, Command(cmd, env)), ParseId(id);
            var h := HandleRead(s.hal, d, env); var payload := HandlePayload(h);
            && SpellsHandle(payload, h)
            && if RecordsOutside(s.hal, d, env.answers) then Lost(s, s')
               else if !Grants(s.hal, d, env.answers) then Answered(s, s', cmd, 1, [], [], env)
               else if h.numFds != 0 && !env.memoryOk then Lost(s, s')
               else Answered(s, s', cmd, Made(|payload|, env), payload, h.data[..h.numFds], env)
  {
    var e, d := Command(cmd, env), ParseId(id);
    var h := HandleRead(s.hal, d, env);
    TunerRead(cmd, id, sourceType);
    DtvDispatch(s, cmd, env);
    HandleIsSpelled(h);
    assert Fds(h) == h.data[..h.numFds];
    StepFaultsIff(s, e);
    GetStreamFaultsIff(s.hal, d, env.answers);
    if !Faulty(s, e) {
      DispatchFaultsIff(s, cmd, env);
      AnsweredAs(s, cmd, env, HandlePayload(h), Fds(h));
      if !Grants(s.hal, d, env.answers) {
        RefusalAnswers(s, cmd, env, 1);
      }
    }
  }

  /** 3, START_SCAN: tuner id and source type go to the vendor library; the response is empty. */
  lemma StartScanAnswered(s: State, cmd: Pdu, env: CommandEnv, id: CStr, sourceType: byte)
    requires ArrivesAtDtv(s, cmd, env) && cmd.opcode == 3 && NamesTuner(cmd.data, id, sourceType)
    ensures Answered(s, Step(s, Command(cmd, env)), cmd, VendorError(StartScanning(id, sourceType), 0, env), [], [], env)
  {
    TunerRead(cmd, id, sourceType);
    DtvDispatch(s, cmd, env);
    VendorAnswers(s, cmd, env, StartScanCall(cmd), []);
  }

  /** 4, STOP_SCAN: the same for the vendor's other call. */
  lemma StopScanAnswered(s: State, cmd: Pdu, env: CommandEnv, id: CStr, sourceType: byte)
    requires ArrivesAtDtv(s, cmd, env) && cmd.opcode == 4 && NamesTuner(cmd.data, id, sourceType)
    ensures Answered(s, Step(s, Command(cmd, env)), cmd, VendorError(StopScanning(id, sourceType), 0, env), [], [], env)
  {
    TunerRead(cmd, id, sourceType);
    DtvDispatch(s, cmd, env);
    VendorAnswers(s, cmd, env, StopScanCall(cmd), []);
  }

  /** 5, CLEAR_CACHE: reads nothing, whatever the payload. */
  lemma ClearCacheAnswered(s: State, cmd: Pdu, env: CommandEnv)
    requires ArrivesAtDtv(s, cmd, env) && cmd.opcode == 5
    ensures Answered(s, Step(s, Command(cmd, env)), cmd, VendorError(ClearChannelCache, 0, env), [], [], env)
  {
    DtvDispatch(s, cmd, env);
    VendorAnswers(s, cmd, env, Some(ClearChannelCache), []);
  }

  /** 6, SET_CHANNEL: tuner id, source type and channel number go to the vendor library, which hands over a channel. */
  lemma SetChannelAnswered(s: State, cmd: Pdu, env: CommandEnv, id: CStr, sourceType: byte, number: CStr)
    requires ArrivesAtDtv(s, cmd, env) && cmd.opcode == 6 && NamesChannel(cmd.data, id, sourceType, number)
    ensures var payload := ChannelOctets(env.channel);
            && Answered(s, Step(s, Command(cmd, env)), cmd,
                        VendorError(TuneTo(id, sourceType, number), |payload|, env), payload, [], env)
            && DecodeRecord(ChannelKind, payload) == Some((ChannelRec(env.channel), []))
  {
    ChannelRead(cmd, id, sourceType, number);
    DtvDispatch(s, cmd, env);
    ChannelIs(env.channel);
    var payload := ChannelOctets(env.channel);
    RecordRoundTrip(ChannelKind, ChannelRec(env.channel), [], payload);
    assert payload + [] == payload;
    VendorAnswers(s, cmd, env, SetChannelCall(cmd), payload);
  }

  lemma ListPayloadReads(kind: Kind, rs: List32<Record>)
    requires AllOfKind(kind, rs) && AllReadable(rs) && kind != ProgramKind(true)
    ensures var readsBack := DecodeList(kind, ListPayload(rs)) == Some((VisibleAll(kind, rs), []));
            && (readsBack <==> SpellsItself(kind, rs)) && (AllBalanced(rs) ==> readsBack)
  {
    var n: u32 := |rs| % TWO32;
    assert n == |rs|;
    ListReplyReadsBack(kind, rs, ListPayload(rs));
  }

  lemma ChannelsRead(rs: ChannelList)
    ensures DecodeList(ChannelKind, ListPayload(rs)) == Some((rs, []))
  {
    ListPayloadReads(ChannelKind, rs);
    assert VisibleAll(ChannelKind, rs) == rs;
  }

  /** 7, GET_CHANNELS: tuner id and source type go to the vendor library, and a client reads its channels back. */
  lemma GetChannelsAnswered(s: State, cmd: Pdu, env: CommandEnv, id: CStr, sourceType: byte)
    requires ArrivesAtDtv(s, cmd, env) && cmd.opcode == 7 && NamesTuner(cmd.data, id, sourceType)
    ensures var payload := ListPayload(env.channels);
            && Answered(s, Step(s, Command(cmd, env)), cmd,
                        VendorError(ListChannels(id, sourceType), |payload|, env), payload, [], env)
            && DecodeList(ChannelKind, payload) == Some((env.channels, []))
  {
    TunerRead(cmd, id, sourceType);
    DtvDispatch(s, cmd, env);
    ChannelsRead(env.channels);
    VendorAnswers(s, cmd, env, GetChannelsCall(cmd), ListPayload(env.channels));
  }

  /**
   8, GET_PROGRAMS: tuner id, source type, channel number and the two times go to the vendor library. A client reads
   its programs back, all but titles and uncounted subtitle languages, under the condition of the list replies.
   */
  lemma GetProgramsAnswered(s: State, cmd: Pdu, env: CommandEnv, id: CStr, sourceType: byte, number: CStr, start: u64, end: u64)
    requires ArrivesAtDtv(s, cmd, env) && cmd.opcode == 8 && NamesPrograms(cmd.data, id, sourceType, number, start, end)
    ensures var s', call, rs := Step(s, Command(cmd, env)), ListPrograms(id, sourceType, number, start, end), env.programs;
            if !AllReadable(rs) then
              if env.vendor(call) == 0 then Lost(s, s') else Answered(s, s', cmd, env.vendor(call), [], [], env)
            else
              var payload := ListPayload(rs);
              && Answered(s, s', cmd, VendorError(call, |payload|, env), payload, [], env)
              && (AllOfKind(ProgramKind(false), rs) ==>
                    (DecodeList(ProgramKind(false), payload) == Some((VisibleAll(ProgramKind(false), rs), []))
                     <==> SpellsItself(ProgramKind(false), rs)))
  {
    ProgramsRead(cmd, id, sourceType, number, start, end);
    DtvDispatch(s, cmd, env);
    if AllReadable(env.programs) {
      VendorAnswers(s, cmd, env, GetProgramsCall(cmd), ListPayload(env.programs));
      if AllOfKind(ProgramKind(false), env.programs) {
        ListPayloadReads(ProgramKind(false), env.programs);
      }
    } else if env.vendor(ListPrograms(id, sourceType, number, start, end)) == 0 {
      StepFaultsIff(s, Command(cmd, env));
    } else {
      VendorAnswers(s, cmd, env, GetProgramsCall(cmd), []);
    }
  }

  /** The arguments that the command needs are not there. */
  ghost predicate Unreadable(cmd: Pdu) {
    if cmd.opcode == 2 || cmd.opcode == 3 || cmd.opcode == 4 || cmd.opcode == 7 then
      forall id: CStr, sourceType: byte :: !NamesTuner(cmd.data, id, sourceType)
    else if cmd.opcode == 6 then
      forall id: CStr, sourceType: byte, number: CStr :: !NamesChannel(cmd.data, id, sourceType, number)
    else
      && cmd.opcode == 8
      && forall id: CStr, sourceType: byte, number: CStr, start: u64, end: u64 ::
           !NamesPrograms(cmd.data, id, sourceType, number, start, end)
  }

  lemma NothingRead(cmd: Pdu)
    requires Unreadable(cmd)
    ensures cmd.opcode == 2 || cmd.opcode == 3 || cmd.opcode == 4 || cmd.opcode == 7 ==> ReadTuner(cmd).None?
    ensures cmd.opcode == 6 ==> SetChannelCall(cmd).None?
    ensures cmd.opcode == 8 ==> GetProgramsCall(cmd).None?
  {
    if ReadTuner(cmd).Some? {
      TunerRead(cmd, ReadTuner(cmd).value.0, ReadTuner(cmd).value.1);
    }
    if SetChannelCall(cmd).Some? {
      var c := SetChannelCall(cmd).value;
      ChannelRead(cmd, c.tunerId, c.sourceType, c.number);
    }
    if GetProgramsCall(cmd).Some? {
      var c := GetProgramsCall(cmd).value;
      ProgramsRead(cmd, c.tunerId, c.sourceType, c.number, c.start, c.end);
    }
  }

  /** Error 1 when the arguments of opcodes 2, 3, 4, 6, 7 or 8 cannot be read; error 6 for all other opcodes but 1 and 5. */
  lemma BadCommandAnswered(s: State, cmd: Pdu, env: CommandEnv)
    requires ArrivesAtDtv(s, cmd, env)
    ensures Unreadable(cmd) ==> Answered(s, Step(s, Command(cmd, env)), cmd, 1, [], [], env)
    ensures cmd.opcode == 0 || cmd.opcode > 8 ==> Answered(s, Step(s, Command(cmd, env)), cmd, 6, [], [], env)
  {
    DtvDispatch(s, cmd, env);
    if Unreadable(cmd) {
      NothingRead(cmd);
      RefusalAnswers(s, cmd, env, 1);
    }
    if cmd.opcode == 0 || cmd.opcode > 8 {
      RefusalAnswers(s, cmd, env, 6);
    }
  }

  // ---------- the Registry, and services that are not there ----------

  lemma ServiceRead(cmd: Pdu)
    ensures ReadService(cmd) == if cmd.data == [] then None else Some(cmd.data[0])
  {
    OnlyEncodingsRead("C", cmd.data);
    if cmd.data != [] {
      var c := cmd.data[0];
      EncodeOne(C(c));
      ReadIff([C(c)], cmd.data[1..], "C", cmd.data);
      assert FormatOf([C(c)]) == "C";
      assert cmd.data == [c] + cmd.data[1..];
    }
  }

  lemma VersionOctets()
    ensures U32Bytes(1) == [1, 0, 0, 0]
  {
    assert LeBytes(4, 1) == [1] + LeBytes(3, 0);
    assert LeBytes(3, 0) == [0] + LeBytes(2, 0);
    assert LeBytes(2, 0) == [0] + LeBytes(1, 0);
  }

  /** REGISTER_MODULE: which error comes first, and the version as the answer. */
  lemma RegisterAnswered(s: State, cmd: Pdu, env: CommandEnv)
    requires Arrives(s, cmd, env) && cmd.service == 0 && cmd.opcode == 1
    ensures var error := if cmd.data == [] then 7
                         else if cmd.data[0] != 1 || s.dtvSend then 1
                         else if !env.memoryOk then 3
                         else if !(env.moduleOk && env.deviceOk) then 1 else 0;
            Answered(s, Step(s, Command(cmd, env)), cmd, error, [1, 0, 0, 0], [], env)
  {
    ServiceRead(cmd);
    VersionOctets();
    RegistryOpcodes(cmd.opcode);
    RegisterResponds(s, cmd, env);
    RegisterSucceedsIff(s, cmd, env);
    if HandleRegister(s, cmd, env).1 == 0 {
      RegisterReply(s, cmd, env);
    }
    AnsweredAs(s, cmd, env, [1, 0, 0, 0], []);
  }

  /** UNREGISTER_MODULE: the same, with an empty answer. */
  lemma UnregisterAnswered(s: State, cmd: Pdu, env: CommandEnv)
    requires Arrives(s, cmd, env) && cmd.service == 0 && cmd.opcode == 2
    ensures var error := if cmd.data == [] then 7 else if !env.memoryOk then 3 else if cmd.data[0] != 1 then 1 else 0;
            Answered(s, Step(s, Command(cmd, env)), cmd, error, [], [], env)
  {
    ServiceRead(cmd);
    RegistryOpcodes(cmd.opcode);
    UnregisterResponds(s, cmd, env);
    AnsweredAs(s, cmd, env, [], []);
  }

  /** Error 6 for other Registry opcodes, for services that do not exist, and for DTV while it is absent. */
  lemma NobodyAnswers(s: State, cmd: Pdu, env: CommandEnv)
    requires Arrives(s, cmd, env)
    requires if cmd.service == 0 then cmd.opcode == 0 || cmd.opcode > 2 else cmd.service > 1 || !s.dtvSend
    ensures Answered(s, Step(s, Command(cmd, env)), cmd, 6, [], [], env)
  {
    UnsupportedIsRefused(s, cmd, env);
    RefusalAnswers(s, cmd, env, 6);
  }

  // ---------- notifications ----------

  /** Opcode and payload of a notification, by number and octet. */
  ghost function NotificationOctets(id: CStr, sourceType: byte, n: Notification): (byte, seq<byte>)
    requires !LanguagesMissing(n)
  {
    var source := id + [0, sourceType];
    match n
    case ChannelScanned(ch) => (0x81, source + ChannelOctets(ch))
    case ScanComplete => (0x82, source)
    case ScanStopped => (0x83, source)
    case EitBroadcasted(ch, progs) => (0x84, source + ChannelOctets(ch) + ListPayload(progs))
  }

  lemma NotificationIs(id: CStr, sourceType: byte, n: Notification)
    requires !LanguagesMissing(n)
    ensures (NotificationOpcode(n), NotificationPayload(id, sourceType, n)) == NotificationOctets(id, sourceType, n)
  {
    TunerArguments(id, sourceType);
    match n
    case ChannelScanned(ch) => ChannelIs(ch);
    case ScanComplete =>
    case ScanStopped =>
    case EitBroadcasted(ch, progs) =>
      ChannelIs(ch);
      var k: u32 := |progs| % TWO32;
      assert k == |progs|;
      ConcatAssociates(SourceAndChannel(id, sourceType, ch), U32Bytes(k), AppendedRecords(progs));
  }

  /** A callback with a tuner id queues this PDU behind the others, unless something fails; one without does nothing. */
  lemma NotificationQueuedAs(s: State, id: Option<CStr>, sourceType: byte, n: Notification, ok: bool)
    requires Enabled(s, Notified(id, sourceType, n, ok)) && !LanguagesMissing(n)
    ensures var s' := Step(s, Notified(id, sourceType, n, ok));
            if id.None? || !ok || |NotificationOctets(id.value, sourceType, n).1| > 0xFFFF then s' == s
            else
              var (opcode, payload) := NotificationOctets(id.value, sourceType, n);
              s' == s.(tasks := s.tasks + [Msg(1, opcode, payload, [])])
  {
    if id.Some? {
      NotificationIs(id.value, sourceType, n);
    }
  }

  /** A client reads an event-table notification back as tuner, source type, channel and programs. */
  lemma EventTableReads(id: CStr, sourceType: byte, ch: Channel, progs: ProgramList)
    requires AllReadable(progs) && AllOfKind(ProgramKind(false), progs)
    ensures DecodeEit(NotificationOctets(id, sourceType, EitBroadcasted(ch, progs)).1)
            == Some((id, sourceType, ch, VisibleAll(ProgramKind(false), progs), []))
       <==> SpellsItself(ProgramKind(false), progs)
  {
    NotificationIs(id, sourceType, EitBroadcasted(ch, progs));
    EitReadsBack(id, sourceType, ch, progs);
  }
}
