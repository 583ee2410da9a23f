/** The driver's streams over whole runs: none is lost, and what is granted is open. */
module Streams {
  import opened Base
  import opened Protocol
  import opened PduBuffer
  import opened Ancillary
  import opened SetSourceReply
  import opened TunerIds
  import opened DeviceTable
  import opened SendQueue
  import opened Services
  import opened Runs

  /** Every open stream is recorded, and none is open while DTV is absent. */
  ghost predicate StreamsKept(s: State) {
    Ledger(s.hal) && (!s.dtvSend ==> s.hal.open == {})
  }

  /** The event does not make set_source open a stream that no live slot records. */
  predicate Lossless(s: State, e: Event) {
    e.Command? && ReachesSetSource(s, e.cmd) ==>
      !OpensUnrecorded(s.hal, ParseId(ReadSource(e.cmd).value), e.env.answers)
  }

  /** ... and, while DTV is installed, every recorded stream is open. */
  ghost predicate StreamsExact(s: State) {
    StreamsKept(s) && (s.dtvSend ==> Exact(s.hal))
  }

  /** The event makes set_source close the previous stream of a device for one that fails to open. */
  predicate Strands(s: State, e: Event) {
    && e.Command? && ReachesSetSource(s, e.cmd)
    && ClosesThenFails(s.hal, ParseId(ReadSource(e.cmd).value), e.env.answers)
  }

  lemma RegisterDtvKeepsStreams(s: State, env: CommandEnv)
    requires StreamsKept(s) && !s.dtvSend
    ensures StreamsExact(RegisterDtv(s, env).0)
  {
    var h := DeviceTable.Init(s.hal, env.moduleOk, env.deviceOk);
    assert Exact(h) && h.slots == [] && h.open == {};
    UninitClosesAll(h);
  }

  lemma RegisterKeepsStreams(s: State, cmd: Pdu, env: CommandEnv)
    requires Lifecycle(s) && StreamsKept(s)
    ensures var s' := HandleRegister(s, cmd, env).0;
            if s.dtvSend then s' == s else StreamsExact(s')
  {
    if !s.dtvSend {
      RegisterDtvKeepsStreams(s, env);
    }
  }

  lemma UnregisterKeepsStreams(s: State, cmd: Pdu, env: CommandEnv)
    requires Lifecycle(s) && StreamsKept(s)
    ensures var s' := HandleUnregister(s, cmd, env).0;
            s' == s || StreamsExact(s')
  {
    UninitClosesAll(s.hal);
  }

  lemma RegistryKeepsStreams(s: State, cmd: Pdu, env: CommandEnv)
    requires Lifecycle(s) && StreamsKept(s)
    ensures var s' := HandleRegistry(s, cmd, env).0;
            s' == s || StreamsExact(s')
  {
    RegistryOpcodes(cmd.opcode);
    RegisterKeepsStreams(s, cmd, env);
    UnregisterKeepsStreams(s, cmd, env);
  }

  lemma DtvKeepsStreamsIff(s: State, cmd: Pdu, env: CommandEnv)
    requires Lifecycle(s) && TableOk(s) && StreamsKept(s) && s.dtvSend
    ensures StreamsKept(HandleDtv(s, cmd, env).0) <==>
            !(cmd.opcode == 2 && ReadSource(cmd).Some? && OpensUnrecorded(s.hal, ParseId(ReadSource(cmd).value), env.answers))
  {
    DtvResponds(s, cmd, env);
    if cmd.opcode == 2 && ReadSource(cmd).Some? {
      GetStreamKeepsLedgerIff(s.hal, ParseId(ReadSource(cmd).value), env.answers);
    }
  }

  lemma DispatchKeepsStreamsIff(s: State, cmd: Pdu, env: CommandEnv)
    requires Lifecycle(s) && TableOk(s) && StreamsKept(s)
    ensures StreamsKept(Dispatch(s, cmd, env).0) <==> Lossless(s, Command(cmd, env))
  {
    match Lookup(cmd.service, s.handlers)
    case None =>
    case Some(handler) =>
      match handler
      case RegistryHandler => RegistryKeepsStreams(s, cmd, env);
      case DtvHandler =>
        DtvOpcodes(cmd.opcode);
        DtvKeepsStreamsIff(s, cmd, env);
  }

  lemma CommandKeepsStreamsIff(s: State, cmd: Pdu, env: CommandEnv)
    requires Core(s) && StreamsKept(s) && s.running
    ensures StreamsKept(HandleCommand(s, cmd, env)) <==> Lossless(s, Command(cmd, env))
  {
    CommandReplies(s, cmd, env);
    DispatchKeepsStreamsIff(s, cmd, env);
  }

  /** A step keeps every open stream recorded exactly when it does not open one for an unlisted device (or stream -1). */
  lemma StepKeepsStreamsIff(s: State, e: Event)
    requires Core(s) && StreamsKept(s) && Enabled(s, e)
    ensures StreamsKept(Step(s, e)) <==> Lossless(s, e)
  {
    match e
    case Command(cmd, env) => CommandKeepsStreamsIff(s, cmd, env);
    case HotPlugged(event) => NotifyKeepsLedger(s.hal, event);
    case _ =>
  }

  lemma DtvKeepsExactIff(s: State, cmd: Pdu, env: CommandEnv)
    requires Lifecycle(s) && TableOk(s) && StreamsExact(s) && s.dtvSend
    ensures StreamsExact(HandleDtv(s, cmd, env).0) <==>
            !(&& cmd.opcode == 2 && ReadSource(cmd).Some?
              && var id := ParseId(ReadSource(cmd).value);
                 OpensUnrecorded(s.hal, id, env.answers) || ClosesThenFails(s.hal, id, env.answers))
  {
    DtvResponds(s, cmd, env);
    if cmd.opcode == 2 && ReadSource(cmd).Some? {
      GetStreamKeepsExactIff(s.hal, ParseId(ReadSource(cmd).value), env.answers);
    }
  }

  lemma DispatchKeepsExactIff(s: State, cmd: Pdu, env: CommandEnv)
    requires Lifecycle(s) && TableOk(s) && StreamsExact(s)
    ensures var e := Command(cmd, env);
            StreamsExact(Dispatch(s, cmd, env).0) <==> Lossless(s, e) && !Strands(s, e)
  {
    match Lookup(cmd.service, s.handlers)
    case None =>
    case Some(handler) =>
      match handler
      case RegistryHandler => RegistryKeepsStreams(s, cmd, env);
      case DtvHandler =>
        DtvOpcodes(cmd.opcode);
        DtvKeepsExactIff(s, cmd, env);
  }

  /**
   A step keeps record and driver equal exactly when it neither opens a stream unrecorded nor closes one for
   another that fails to open.
   */
  lemma StepKeepsExactIff(s: State, e: Event)
    requires Core(s) && StreamsExact(s) && Enabled(s, e)
    ensures StreamsExact(Step(s, e)) <==> Lossless(s, e) && !Strands(s, e)
  {
    match e
    case Command(cmd, env) =>
      CommandReplies(s, cmd, env);
      DispatchKeepsExactIff(s, cmd, env);
    case HotPlugged(event) =>
      NotifyKeepsLedger(s.hal, event);
      if s.dtvSend {
        NotifyKeepsExact(s.hal, event);
      }
    case _ =>
  }

  /** No SET_SOURCE of the run opens a stream unrecorded, or closes one for another that fails to open. */
  ghost predicate KeepsBooks(es: seq<Event>) {
    forall n :: 0 <= n < |es| ==> Lossless(Run(START_UP, es[..n]), es[n]) && !Strands(Run(START_UP, es[..n]), es[n])
  }

  lemma {:induction false} StreamsStayExact(es: seq<Event>)
    requires KeepsBooks(es)
    ensures StreamsExact(Run(START_UP, es))
  {
    if es == [] {
    } else {
      var front := es[..|es| - 1];
      forall n | 0 <= n < |front|
        ensures Lossless(Run(START_UP, front[..n]), front[n]) && !Strands(Run(START_UP, front[..n]), front[n])
      {
        assert front[..n] == es[..n];
      }
      StreamsStayExact(front);
      RunKeepsCore(front);
      var s := Run(START_UP, front);
      assert Lossless(s, es[|es| - 1]) && !Strands(s, es[|es| - 1]);
      if Enabled(s, es[|es| - 1]) {
        StepKeepsExactIff(s, es[|es| - 1]);
      }
    }
  }

  /** No SET_SOURCE of the run opens a stream that no live slot records. */
  ghost predicate AllLossless(es: seq<Event>) {
    forall n :: 0 <= n < |es| ==> Lossless(Run(START_UP, es[..n]), es[n])
  }

  lemma AllLosslessFront(es: seq<Event>)
    requires AllLossless(es) && es != []
    ensures AllLossless(es[..|es| - 1]) && Lossless(Run(START_UP, es[..|es| - 1]), es[|es| - 1])
  {
    var front := es[..|es| - 1];
    forall n | 0 <= n < |front|
      ensures Lossless(Run(START_UP, front[..n]), front[n])
    {
      assert front[..n] == es[..n];
    }
  }

  /**
   Over every run in which SET_SOURCE opens streams for listed devices only: every stream open in the
   driver is the acting stream of exactly one live slot, each device has at most one, and none is open
   while DTV is absent, so registering again drops nothing.
   */
  lemma {:induction false} NoStreamIsLost(es: seq<Event>)
    requires AllLossless(es)
    ensures StreamsKept(Run(START_UP, es))
  {
    if es == [] {
    } else {
      var front := es[..|es| - 1];
      var s := Run(START_UP, front);
      AllLosslessFront(es);
      NoStreamIsLost(front);
      RunKeepsCore(front);
      if Enabled(s, es[|es| - 1]) {
        StepKeepsStreamsIff(s, es[|es| - 1]);
      }
    }
  }

  // ---------- which grants are real ----------

  lemma ReachedSetSource(s: State, cmd: Pdu, env: CommandEnv)
    requires Lifecycle(s) && ReachesSetSource(s, cmd)
    ensures s.dtvSend && Dispatch(s, cmd, env) == HandleSetSource(s, cmd, env)
  {
  }

  lemma SetSourceGrants(s: State, cmd: Pdu, env: CommandEnv)
    requires ReadSource(cmd).Some? && HandleSetSource(s, cmd, env).1 == ERROR_NONE
    ensures DeviceTable.GetStream(s.hal, ParseId(ReadSource(cmd).value), env.answers)
            == (HandleSetSource(s, cmd, env).0.hal, TV_STATUS_SUCCESS)
  {
  }

  /** The event is a SET_SOURCE for this device that reaches the driver. */
  predicate Asks(s: State, e: Event, id: i32) {
    e.Command? && ReachesSetSource(s, e.cmd) && ParseId(ReadSource(e.cmd).value) == id
  }

  /** What an event in this state makes of the question whether the device's recorded stream is stranded. */
  ghost predicate StrandedAfter(s: State, e: Event, id: i32, before: bool) {
    if Asks(s, e, id) then
      ClosesThenFails(s.hal, id, e.env.answers) || (before && !OpensAnew(s.hal, id, e.env.answers))
    else
      before && !(e.HotPlugged? && Releases(e.event, id)) && Step(s, e).dtvSend
  }

  /**
   By what the daemon sees: the last SET_SOURCE for the device that closed its recorded stream failed to open
   another, and since then no SET_SOURCE has opened a stream for it, it has been neither withdrawn nor
   reconfigured, and DTV has stayed.
   */
  ghost predicate Stranded(es: seq<Event>, id: i32) {
    if es == [] then false else
      var front, e := es[..|es| - 1], es[|es| - 1];
      var s := Run(START_UP, front);
      if Enabled(s, e) then StrandedAfter(s, e, id, Stranded(front, id)) else Stranded(front, id)
  }

  /** The record of the device is as the history says, while DTV is installed; there is none while it is absent. */
  ghost predicate StrandsKnown(s: State, id: i32, stranded: bool) {
    if s.dtvSend then stranded <==> RecordsClosed(s.hal, id) else !stranded
  }

  lemma OtherDtvCommand(s: State, cmd: Pdu, env: CommandEnv, id: i32, stranded: bool)
    requires Lifecycle(s) && TableOk(s) && Ledger(s.hal) && Lookup(cmd.service, s.handlers) == Some(DtvHandler)
    requires StrandsKnown(s, id, stranded) && Lossless(s, Command(cmd, env)) && !Asks(s, Command(cmd, env), id)
    ensures StrandsKnown(Dispatch(s, cmd, env).0, id, stranded)
  {
    DtvOpcodes(cmd.opcode);
    DtvResponds(s, cmd, env);
    if cmd.opcode == 2 && ReadSource(cmd).Some? {
      GetStreamKeepsClosed(s.hal, ParseId(ReadSource(cmd).value), env.answers, id);
    }
  }

  lemma SourceCommandStrands(s: State, cmd: Pdu, env: CommandEnv, id: i32, stranded: bool)
    requires Lifecycle(s) && TableOk(s) && Ledger(s.hal) && Asks(s, Command(cmd, env), id)
    requires StrandsKnown(s, id, stranded) && Lossless(s, Command(cmd, env))
    ensures var s1 := Dispatch(s, cmd, env).0;
            s1.dtvSend && (RecordsClosed(s1.hal, id) <==> StrandedAfter(s, Command(cmd, env), id, stranded))
  {
    ReachedSetSource(s, cmd, env);
    DtvOpcodes(cmd.opcode);
    DtvResponds(s, cmd, env);
    GetStreamKeepsClosed(s.hal, id, env.answers, id);
  }

  lemma RegistryStrands(s: State, cmd: Pdu, env: CommandEnv, id: i32, stranded: bool)
    requires Lifecycle(s) && StreamsKept(s) && StrandsKnown(s, id, stranded)
    ensures var s1 := HandleRegistry(s, cmd, env).0;
            StrandsKnown(s1, id, stranded && s1.dtvSend)
  {
    RegistryOpcodes(cmd.opcode);
    RegisterKeepsStreams(s, cmd, env);
    UnregisterKeepsStreams(s, cmd, env);
    ExactIsNotStranded(HandleRegistry(s, cmd, env).0.hal, id);
  }

  lemma ExactIsNotStranded(h: Hal, id: i32)
    ensures Exact(h) ==> !RecordsClosed(h, id)
  {
  }

  lemma CommandStrands(s: State, cmd: Pdu, env: CommandEnv, id: i32, stranded: bool)
    requires Lifecycle(s) && TableOk(s) && StreamsKept(s) && StrandsKnown(s, id, stranded)
    requires Lossless(s, Command(cmd, env))
    ensures var s1 := Dispatch(s, cmd, env).0;
            if Asks(s, Command(cmd, env), id)
            then s1.dtvSend && (RecordsClosed(s1.hal, id) <==> StrandedAfter(s, Command(cmd, env), id, stranded))
            else StrandsKnown(s1, id, stranded && s1.dtvSend)
  {
    match Lookup(cmd.service, s.handlers)
    case None =>
    case Some(handler) =>
      match handler
      case RegistryHandler => RegistryStrands(s, cmd, env, id, stranded);
      case DtvHandler =>
        if Asks(s, Command(cmd, env), id) {
          SourceCommandStrands(s, cmd, env, id, stranded);
        } else {
          OtherDtvCommand(s, cmd, env, id, stranded);
        }
  }

  lemma StepStrands(s: State, e: Event, id: i32, stranded: bool)
    requires Core(s) && StreamsKept(s) && Enabled(s, e) && Lossless(s, e) && StrandsKnown(s, id, stranded)
    ensures StrandsKnown(Step(s, e), id, StrandedAfter(s, e, id, stranded))
  {
    match e
    case Command(cmd, env) =>
      CommandReplies(s, cmd, env);
      CommandStrands(s, cmd, env, id, stranded);
    case HotPlugged(event) =>
      if s.dtvSend {
        NotifyKeepsClosed(s.hal, event, id);
      }
    case _ =>
  }

  /** Over every such run, what the history says of a device is what its record and the driver say. */
  lemma {:induction false} HistoryKnowsStrands(es: seq<Event>, id: i32)
    requires AllLossless(es)
    ensures StrandsKnown(Run(START_UP, es), id, Stranded(es, id))
  {
    if es == [] {
    } else {
      var front, e := es[..|es| - 1], es[|es| - 1];
      AllLosslessFront(es);
      HistoryKnowsStrands(front, id);
      NoStreamIsLost(front);
      RunKeepsCore(front);
      if Enabled(Run(START_UP, front), e) {
        StepStrands(Run(START_UP, front), e, id, Stranded(front, id));
      }
    }
  }

  lemma SourceOpensIff(s: State, cmd: Pdu, env: CommandEnv)
    requires Lifecycle(s) && TableOk(s) && ReachesSetSource(s, cmd) && Dispatch(s, cmd, env).1 == ERROR_NONE
    ensures s.dtvSend && Requested(env.answers).Some?
    ensures var id, x := ParseId(ReadSource(cmd).value), Requested(env.answers).value;
            StreamKey(id, x) in HandleCommand(s, cmd, env).hal.open
            <==> !(AlreadyActing(s.hal, id, x) && RecordsClosed(s.hal, id))
  {
    ReachedSetSource(s, cmd, env);
    SetSourceGrants(s, cmd, env);
    GrantedMeansGrants(s.hal, ParseId(ReadSource(cmd).value), env.answers);
    GrantedIsOpenIff(s.hal, ParseId(ReadSource(cmd).value), env.answers);
    RepliesLeaveHal(s, cmd, env);
  }

  lemma GrantedMeansGrants(h: Hal, id: i32, a: DeviceTable.Answers)
    requires h.up && DeviceTable.GetStream(h, id, a).1 == TV_STATUS_SUCCESS
    ensures Grants(h, id, a)
  {
  }

  /**
   Over every run without an unrecorded open, whatever happened to other devices: a SET_SOURCE that is answered
   with success leaves its stream open, unless that stream was found on record while the device was stranded.
   */
  lemma {:induction false} GrantedStreamIsOpenIff(es: seq<Event>, s: State, cmd: Pdu, env: CommandEnv)
    requires AllLossless(es) && s == Run(START_UP, es)
    requires s.running && ReachesSetSource(s, cmd) && Dispatch(s, cmd, env).1 == ERROR_NONE
    ensures Requested(env.answers).Some?
    ensures var id, x := ParseId(ReadSource(cmd).value), Requested(env.answers).value;
            StreamKey(id, x) in HandleCommand(s, cmd, env).hal.open
            <==> !(AlreadyActing(s.hal, id, x) && Stranded(es, id))
  {
    HistoryKnowsStrands(es, ParseId(ReadSource(cmd).value));
    RunKeepsCore(es);
    SourceOpensIff(s, cmd, env);
  }

  // ---------- the handle of a granted stream ----------

  /** Another handle in memory when set_source is called. */
  function WithStale(env: CommandEnv, h: Handle): CommandEnv {
    env.(stale := h)
  }

  /** What the command does depends on a handle that nothing has filled in. */
  ghost predicate DependsOnStale(s: State, cmd: Pdu, env: CommandEnv) {
    exists h: Handle :: Dispatch(s, cmd, WithStale(env, h)) != Dispatch(s, cmd, env)
  }

  /** A handle whose reply differs from that of this one: with another version, or without descriptors, or with one. */
  function Different(h: Handle, env: CommandEnv): Handle {
    if env.memoryOk then NativeHandle(if h.version == 0 then 1 else 0, 0, 0, [])
    else if h.numFds == 0 then NativeHandle(0, 1, 0, [0])
    else NativeHandle(0, 0, 0, [])
  }

  lemma VersionsDiffer(d: Handle, h: Handle)
    requires d.version != h.version
    ensures HandlePayload(d) != HandlePayload(h)
  {
    HandleHeadReads(d, Ints(SentInts(d)));
    HandleHeadReads(h, Ints(SentInts(h)));
    assert HandleHead(d)[0] != HandleHead(h)[0];
  }

  lemma MessagesDiffer(io: Io, a: Msg, b: Msg, env: Env)
    requires a != b
    ensures Send(io, a, env).0 != Send(io, b, env).0
  {
    var n := |io.accepted|;
    assert Send(io, a, env).0.accepted[n] == a && Send(io, b, env).0.accepted[n] == b;
  }

  lemma ResponsesDiffer(s: State, cmd: Pdu, d: Handle, h: Handle, env: CommandEnv)
    requires env.memoryOk && |HandlePayload(d)| <= PDU_MAX_DATA_LENGTH && HandlePayload(d) != HandlePayload(h)
    ensures SendHandle(s, cmd, d, env) != SendHandle(s, cmd, h, env)
  {
    MessagesDiffer(s.io, Msg(cmd.service, cmd.opcode, HandlePayload(d), Fds(d)),
                   Msg(cmd.service, cmd.opcode, HandlePayload(h), Fds(h)), env.send);
  }

  lemma DifferentReply(s: State, cmd: Pdu, h: Handle, env: CommandEnv)
    requires !s.fault
    ensures SendHandle(s, cmd, Different(h, env), env) != SendHandle(s, cmd, h, env)
  {
    if env.memoryOk {
      var d := Different(h, env);
      BareHandle(d);
      VersionsDiffer(d, h);
      ResponsesDiffer(s, cmd, d, h, env);
    } else {
      MissingTailsDiffer(s, cmd, Different(h, env), h, env);
    }
  }

  lemma BareHandle(d: Handle)
    requires d.numInts == 0
    ensures |HandlePayload(d)| == 12
  {
    HandleHeadLength(d);
    IntsLength(SentInts(d));
  }

  lemma MissingTailsDiffer(s: State, cmd: Pdu, d: Handle, h: Handle, env: CommandEnv)
    requires !s.fault && !env.memoryOk && (d.numFds == 0) != (h.numFds == 0)
    ensures SendHandle(s, cmd, d, env) != SendHandle(s, cmd, h, env)
  {
    assert SendHandle(s, cmd, d, env).0.fault != SendHandle(s, cmd, h, env).0.fault;
  }

  lemma SetSourceReads(s: State, cmd: Pdu, env: CommandEnv)
    requires Lifecycle(s) && TableOk(s) && !Faulted(s) && ReachesSetSource(s, cmd)
    requires var id := ParseId(ReadSource(cmd).value); Grants(s.hal, id, env.answers) && !RecordsOutside(s.hal, id, env.answers)
    ensures var id := ParseId(ReadSource(cmd).value);
            Dispatch(s, cmd, env) == SendHandle(s.(hal := DeviceTable.GetStream(s.hal, id, env.answers).0), cmd,
                                                HandleRead(s.hal, id, env), env)
  {
    ReachedSetSource(s, cmd, env);
    GetStreamFaultsIff(s.hal, ParseId(ReadSource(cmd).value), env.answers);
  }

  lemma StaleOnlyAsHandle(s: State, cmd: Pdu, h: Handle, env: CommandEnv, stale: Handle)
    ensures SendHandle(s, cmd, h, WithStale(env, stale)) == SendHandle(s, cmd, h, env)
  {
  }

  /**
   In every reachable state: what a granted SET_SOURCE answers, and whether it stays inside its memory, depends on
   a handle that nothing has filled in exactly when the requested stream was acting already.
   */
  lemma StaleMattersIff(s: State, cmd: Pdu, env: CommandEnv)
    requires Core(s) && s.running && ReachesSetSource(s, cmd)
    requires var id := ParseId(ReadSource(cmd).value); Grants(s.hal, id, env.answers) && !RecordsOutside(s.hal, id, env.answers)
    ensures DependsOnStale(s, cmd, env)
            <==> AlreadyActing(s.hal, ParseId(ReadSource(cmd).value), Requested(env.answers).value)
  {
    var id := ParseId(ReadSource(cmd).value);
    var s1 := s.(hal := DeviceTable.GetStream(s.hal, id, env.answers).0);
    SetSourceReads(s, cmd, env);
    if AlreadyActing(s.hal, id, Requested(env.answers).value) {
      var h := Different(env.stale, env);
      SetSourceReads(s, cmd, WithStale(env, h));
      StaleOnlyAsHandle(s1, cmd, h, env, h);
      DifferentReply(s1, cmd, env.stale, env);
      assert Dispatch(s, cmd, WithStale(env, h)) != Dispatch(s, cmd, env);
    } else {
      forall h: Handle
        ensures Dispatch(s, cmd, WithStale(env, h)) == Dispatch(s, cmd, env)
      {
        SetSourceReads(s, cmd, WithStale(env, h));
        StaleOnlyAsHandle(s1, cmd, env.handle, env, h);
      }
    }
  }
}
