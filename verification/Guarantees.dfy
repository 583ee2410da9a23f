/** What a client and the driver can rely on over every run: DTV's coming and going, notifications, tuner ids. */
module Guarantees {
  import opened Base
  import opened Protocol
  import opened Wire
  import opened Records
  import opened PduBuffer
  import opened SetSourceReply
  import opened DtvMessages
  import opened TunerIds
  import opened Dtv
  import opened DeviceTable
  import opened SendQueue
  import opened Services
  import opened Runs

  // ---------- DTV comes and goes ----------

  const VERSION_REPLY := Msg(SERVICE_REGISTRY, OPCODE_REGISTER_MODULE, U32Bytes(PROTOCOL_VERSION), [])

  /** The version is sent exactly when DTV goes from absent to installed. */
  lemma VersionMeansInstalled(s: State, e: Event)
    requires Core(s)
    ensures s.handlers[SERVICE_DTV].None? && Step(s, e).handlers[SERVICE_DTV].Some?
       <==> Step(s, e).io.accepted == s.io.accepted + [VERSION_REPLY]
  {
    var s' := Step(s, e);
    if Enabled(s, e) {
      match e
      case Command(cmd, env) => CommandVersion(s, cmd, env);
      case TaskRun(i, env) =>
        if s.dtvSend {
          SendFiles(s.io, s.tasks[i], env);
          assert s'.io.accepted[|s.io.accepted|] == s.tasks[i];
        }
      case PeerHangup(addOk) => assert |s'.io.accepted| == |s.io.accepted|;
      case Writable(env) => assert |s'.io.accepted| == |s.io.accepted|;
      case _ => assert |s'.io.accepted| == |s.io.accepted|;
    } else {
      assert |s'.io.accepted| == |s.io.accepted|;
    }
  }

  lemma RegistryInstalls(s: State, cmd: Pdu, env: CommandEnv)
    requires Lifecycle(s) && TableOk(s)
    ensures var (s1, status) := HandleRegistry(s, cmd, env);
            !s.dtvSend && s1.dtvSend <==> status == ERROR_NONE && cmd.opcode == OPCODE_REGISTER_MODULE
  {
    RegistryOpcodes(cmd.opcode);
    if cmd.opcode == 1 { RegisterResponds(s, cmd, env); }
    if cmd.opcode == 2 { UnregisterResponds(s, cmd, env); }
  }

  /** Only a successful register_module installs DTV. */
  lemma DispatchInstalls(s: State, cmd: Pdu, env: CommandEnv)
    requires Lifecycle(s) && TableOk(s)
    ensures var (s1, status) := Dispatch(s, cmd, env);
            !s.dtvSend && s1.dtvSend
            <==> status == ERROR_NONE && cmd.service == SERVICE_REGISTRY && cmd.opcode == OPCODE_REGISTER_MODULE
  {
    match Lookup(cmd.service, s.handlers)
    case None =>
    case Some(handler) =>
      match handler
      case RegistryHandler => RegistryInstalls(s, cmd, env);
      case DtvHandler => DtvResponds(s, cmd, env);
  }

  lemma RegisterReplies(s: State, cmd: Pdu, env: CommandEnv)
    requires Core(s) && cmd.service == SERVICE_REGISTRY && cmd.opcode == OPCODE_REGISTER_MODULE
    ensures ReplyTo(s, cmd, env) == VERSION_REPLY <==> Dispatch(s, cmd, env).1 == ERROR_NONE
  {
    RegistryOpcodes(cmd.opcode);
    if Dispatch(s, cmd, env).1 == ERROR_NONE {
      RegisterReply(s, cmd, env);
    }
  }

  lemma CommandVersion(s: State, cmd: Pdu, env: CommandEnv)
    requires Core(s) && s.running
    ensures var s' := HandleCommand(s, cmd, env);
            s.handlers[SERVICE_DTV].None? && s'.handlers[SERVICE_DTV].Some? <==> s'.io.accepted == s.io.accepted + [VERSION_REPLY]
  {
    var s', m, status := HandleCommand(s, cmd, env), ReplyTo(s, cmd, env), Dispatch(s, cmd, env).1;
    CommandReplies(s, cmd, env);
    DispatchResponds(s, cmd, env);
    DispatchInstalls(s, cmd, env);
    assert m == VERSION_REPLY ==> cmd.service == SERVICE_REGISTRY && cmd.opcode == OPCODE_REGISTER_MODULE;
    if cmd.service == SERVICE_REGISTRY && cmd.opcode == OPCODE_REGISTER_MODULE {
      RegisterReplies(s, cmd, env);
    }
    AbortedIsFailed(s, cmd, env);
    if s'.io == s.io {
      assert |s'.io.accepted| == |s.io.accepted|;
    } else {
      SendKeeps(s.io, m, env.send);
      assert s'.io.accepted[|s.io.accepted|] == m;
    }
  }

  /** Only the reply to a failed command can be missing. */
  lemma AbortedIsFailed(s: State, cmd: Pdu, env: CommandEnv)
    requires Core(s) && s.running
    ensures HandleCommand(s, cmd, env).io == s.io ==> Dispatch(s, cmd, env).1 != ERROR_NONE
  {
    DispatchResponds(s, cmd, env);
    var (s1, status) := Dispatch(s, cmd, env);
    if status == ERROR_NONE {
      var m := s1.io.accepted[|s1.io.accepted| - 1];
      SendKeeps(s.io, m, env.send);
      assert |s1.io.accepted| == |s.io.accepted| + 1;
    }
  }

  lemma RegisterReply(s: State, cmd: Pdu, env: CommandEnv)
    requires cmd.service == SERVICE_REGISTRY && cmd.opcode == 1
    requires HandleRegister(s, cmd, env).1 == ERROR_NONE
    ensures HandleRegister(s, cmd, env).0.io == Send(s.io, VERSION_REPLY, env.send).0
  {
  }

  /** A queued notification goes out, as it is and once, when its task runs with DTV present; otherwise it is dropped. */
  lemma NotificationSentIff(s: State, i: nat, env: Env)
    requires Core(s) && Enabled(s, TaskRun(i, env))
    ensures var s' := Step(s, TaskRun(i, env));
            && s'.io.accepted == s.io.accepted + (if s.dtvSend then [s.tasks[i]] else [])
            && s'.tasks == Without(s.tasks, i)
  {
    if s.dtvSend {
      SendKeeps(s.io, s.tasks[i], env);
    }
  }

  /** While DTV is absent, no step puts a notification on the queue, whenever its task was queued. */
  lemma AbsentDtvIsSilent(s: State, e: Event)
    requires Core(s) && !s.dtvSend
    ensures Notifications(Step(s, e).io.accepted) == Notifications(s.io.accepted)
  {
    StepSendsTasks(s, e);
    assert Sent(RanBy(s, e)) == [];
  }

  /** Over every stretch of a run in which DTV stays absent, no notification is sent. */
  lemma {:induction false} NoNotificationWhileAbsent(s: State, es: seq<Event>)
    requires Core(s)
    requires forall n :: 0 <= n < |es| ==> !Run(s, es[..n]).dtvSend
    ensures Notifications(Run(s, es).io.accepted) == Notifications(s.io.accepted)
  {
    if es == [] {
    } else {
      var front := es[..|es| - 1];
      forall n | 0 <= n < |front|
        ensures !Run(s, front[..n]).dtvSend
      {
        assert front[..n] == es[..n];
      }
      NoNotificationWhileAbsent(s, front);
      RunFrom(s, front);
      assert !Run(s, front).dtvSend;
      AbsentDtvIsSilent(Run(s, front), es[|es| - 1]);
    }
  }

  // ---------- notifications, from callback to queue ----------

  /** The notification that this event puts on its way to the I/O thread, if any. */
  ghost function BuiltBy(s: State, e: Event): seq<Msg> {
    if !Enabled(s, e) || !e.Notified? || e.tunerId.None? || LanguagesMissing(e.n) || !e.ok then [] else
    var payload := NotificationPayload(e.tunerId.value, e.sourceType, e.n);
    if |payload| > PDU_MAX_DATA_LENGTH then [] else [Msg(SERVICE_DTV, NotificationOpcode(e.n), payload, [])]
  }

  /** A task that has run: its notification, and whether DTV was there to send it. */
  datatype Ran = Ran(msg: Msg, sent: bool)

  ghost function RanBy(s: State, e: Event): seq<Ran> {
    if Enabled(s, e) && e.TaskRun? then [Ran(s.tasks[e.i], s.dtvSend)] else []
  }

  /** The notifications that a run builds, and the tasks that run in it, in order. */
  ghost function Built(es: seq<Event>): seq<Msg> {
    if es == [] then [] else Built(es[..|es| - 1]) + BuiltBy(Run(START_UP, es[..|es| - 1]), es[|es| - 1])
  }

  ghost function RanTasks(es: seq<Event>): seq<Ran> {
    if es == [] then [] else RanTasks(es[..|es| - 1]) + RanBy(Run(START_UP, es[..|es| - 1]), es[|es| - 1])
  }

  function Messages(rs: seq<Ran>): (ms: seq<Msg>)
    ensures |ms| == |rs| && forall k :: 0 <= k < |rs| ==> ms[k] == rs[k].msg
  {
    seq(|rs|, k requires 0 <= k < |rs| => rs[k].msg)
  }

  /** The notifications of the tasks that found DTV there; the others are dropped. */
  function Sent(rs: seq<Ran>): seq<Msg> {
    if rs == [] then [] else Sent(rs[..|rs| - 1]) + if rs[|rs| - 1].sent then [rs[|rs| - 1].msg] else []
  }

  lemma RanOneMore(rs: seq<Ran>, one: seq<Ran>)
    requires |one| <= 1
    ensures Messages(rs + one) == Messages(rs) + Messages(one)
    ensures Sent(rs + one) == Sent(rs) + Sent(one)
  {
    if one == [] {
      assert rs + one == rs;
    } else {
      assert (rs + one)[..|rs|] == rs && one[..0] == [];
    }
  }

  lemma TaskTaken(tasks: seq<Msg>, i: nat)
    requires i < |tasks|
    ensures multiset(tasks) == multiset([tasks[i]]) + multiset(Without(tasks, i))
    ensures i == 0 ==> tasks == [tasks[i]] + Without(tasks, i)
  {
    assert tasks == tasks[..i] + [tasks[i]] + tasks[i + 1..];
  }

  lemma NotifiedAdds(s: State, e: Event)
    requires Enabled(s, e) && e.Notified?
    ensures Step(s, e).tasks == s.tasks + BuiltBy(s, e) && Step(s, e).io == s.io
  {
    assert s.tasks + [] == s.tasks;
  }

  lemma RunTaskTakes(s: State, e: Event)
    requires Enabled(s, e) && e.TaskRun?
    ensures Step(s, e).tasks == Without(s.tasks, e.i) && Messages(RanBy(s, e)) == [s.tasks[e.i]] && BuiltBy(s, e) == []
  {
  }

  lemma OthersKeepTasks(s: State, e: Event)
    requires Core(s) && !(Enabled(s, e) && (e.Notified? || e.TaskRun?))
    ensures Step(s, e).tasks == s.tasks && RanBy(s, e) == [] && BuiltBy(s, e) == []
  {
    if Enabled(s, e) && e.Command? {
      CommandReplies(s, e.cmd, e.env);
    }
  }

  /** A step takes at most one task from those on their way, or adds one at the end. */
  lemma StepMovesTasks(s: State, e: Event)
    requires Core(s)
    ensures multiset(s.tasks) + multiset(BuiltBy(s, e)) == multiset(Messages(RanBy(s, e))) + multiset(Step(s, e).tasks)
    ensures (e.TaskRun? ==> e.i == 0) ==> s.tasks + BuiltBy(s, e) == Messages(RanBy(s, e)) + Step(s, e).tasks
  {
    if Enabled(s, e) && e.TaskRun? {
      RunTaskTakes(s, e);
      TaskTaken(s.tasks, e.i);
    } else if Enabled(s, e) && e.Notified? {
      NotifiedAdds(s, e);
      assert RanBy(s, e) == [];
    } else {
      OthersKeepTasks(s, e);
    }
  }

  lemma CommandSendsReply(s: State, cmd: Pdu, env: CommandEnv)
    requires Core(s) && s.running
    ensures Notifications(HandleCommand(s, cmd, env).io.accepted) == Notifications(s.io.accepted)
  {
    CommandReplies(s, cmd, env);
    SendFiles(s.io, ReplyTo(s, cmd, env), env.send);
  }

  lemma TaskSends(s: State, i: nat, env: Env)
    requires Core(s) && Enabled(s, TaskRun(i, env))
    ensures Notifications(Step(s, TaskRun(i, env)).io.accepted)
            == Notifications(s.io.accepted) + if s.dtvSend then [s.tasks[i]] else []
  {
    SendFiles(s.io, s.tasks[i], env);
  }

  lemma OthersSendNothing(s: State, e: Event)
    requires Core(s) && !(Enabled(s, e) && (e.Command? || e.TaskRun?))
    ensures Step(s, e).io.accepted == s.io.accepted && RanBy(s, e) == []
  {
  }

  /** A step queues for sending what its task carries, if DTV is there. */
  lemma StepSendsTasks(s: State, e: Event)
    requires Core(s)
    ensures Notifications(Step(s, e).io.accepted) == Notifications(s.io.accepted) + Sent(RanBy(s, e))
  {
    if Enabled(s, e) && e.Command? {
      CommandSendsReply(s, e.cmd, e.env);
    } else if Enabled(s, e) && e.TaskRun? {
      TaskSends(s, e.i, e.taskEnv);
      assert RanBy(s, e)[..0] == [];
    } else {
      OthersSendNothing(s, e);
    }
  }

  lemma Recount(built: seq<Msg>, more: seq<Msg>, ran: seq<Msg>, now: seq<Msg>, tasks: seq<Msg>, left: seq<Msg>)
    requires multiset(built) == multiset(ran) + multiset(tasks)
    requires multiset(tasks) + multiset(more) == multiset(now) + multiset(left)
    ensures multiset(built + more) == multiset(ran + now) + multiset(left)
  {
    Regroup(multiset(ran), multiset(tasks), multiset(more), multiset(now), multiset(left));
    assert multiset(built + more) == multiset(built) + multiset(more);
    assert multiset(ran + now) == multiset(ran) + multiset(now);
  }

  lemma Regroup(r: multiset<Msg>, t: multiset<Msg>, m: multiset<Msg>, n: multiset<Msg>, l: multiset<Msg>)
    requires t + m == n + l
    ensures (r + t) + m == (r + n) + l
  {
    assert (r + t) + m == r + (t + m);
    assert (r + n) + l == r + (n + l);
  }

  lemma {:induction false} TasksAreConserved(es: seq<Event>)
    ensures multiset(Built(es)) == multiset(Messages(RanTasks(es))) + multiset(Run(START_UP, es).tasks)
  {
    if es == [] {
    } else {
      var front, e := es[..|es| - 1], es[|es| - 1];
      var s := Run(START_UP, front);
      TasksAreConserved(front);
      RunKeepsCore(front);
      StepMovesTasks(s, e);
      RanOneMore(RanTasks(front), RanBy(s, e));
      Recount(Built(front), BuiltBy(s, e), Messages(RanTasks(front)), Messages(RanBy(s, e)), s.tasks, Step(s, e).tasks);
    }
  }

  lemma {:induction false} TasksAreSent(es: seq<Event>)
    ensures Notifications(Run(START_UP, es).io.accepted) == Sent(RanTasks(es))
  {
    if es == [] {
    } else {
      var front, e := es[..|es| - 1], es[|es| - 1];
      TasksAreSent(front);
      RunKeepsCore(front);
      StepSendsTasks(Run(START_UP, front), e);
      RanOneMore(RanTasks(front), RanBy(Run(START_UP, front), e));
    }
  }

  /**
   Over every run: each notification that was built is sent, dropped or still on its way, exactly once, in whatever
   order the tasks run; and the notifications on the send queue are those of the tasks that found DTV there.
   */
  lemma {:induction false} NotificationsConserved(es: seq<Event>)
    ensures var s := Run(START_UP, es);
            && multiset(Built(es)) == multiset(Messages(RanTasks(es))) + multiset(s.tasks)
            && Notifications(s.io.accepted) == Sent(RanTasks(es))
  {
    TasksAreSent(es);
    TasksAreConserved(es);
  }

  /** When tasks run first in, first out, notifications keep the order in which they were built. */
  lemma {:induction false} NotificationsInOrder(es: seq<Event>)
    requires forall n :: 0 <= n < |es| && es[n].TaskRun? ==> es[n].i == 0
    ensures Built(es) == Messages(RanTasks(es)) + Run(START_UP, es).tasks
  {
    if es == [] {
    } else {
      var front, e := es[..|es| - 1], es[|es| - 1];
      var s := Run(START_UP, front);
      NotificationsInOrder(front);
      RunKeepsCore(front);
      StepMovesTasks(s, e);
      RanOneMore(RanTasks(front), RanBy(s, e));
      ConcatAssociates(Messages(RanTasks(front)), s.tasks, BuiltBy(s, e));
      ConcatAssociates(Messages(RanTasks(front)), Messages(RanBy(s, e)), Step(s, e).tasks);
    }
  }

  /** The commands of a run that reached the daemon, in order. */
  ghost function Arrived(s: State, es: seq<Event>): seq<Pdu> {
    if es == [] then [] else
      var n := |es| - 1;
      Arrived(s, es[..n])
      + if es[n].Command? && Enabled(Run(s, es[..n]), es[n]) then [es[n].cmd] else []
  }

  function Commands(hs: seq<Handled>): (cs: seq<Pdu>)
    ensures |cs| == |hs| && forall k :: 0 <= k < |hs| ==> cs[k] == hs[k].cmd
  {
    seq(|hs|, k requires 0 <= k < |hs| => hs[k].cmd)
  }

  lemma HandledGrows(s: State, e: Event)
    requires Core(s)
    ensures Commands(Step(s, e).handled) == Commands(s.handled) + if e.Command? && Enabled(s, e) then [e.cmd] else []
  {
    if e.Command? && Enabled(s, e) {
      CommandReplies(s, e.cmd, e.env);
    }
  }

  /** The commands that are answered are those that arrived. */
  lemma {:induction false} HandledAreArrived(es: seq<Event>)
    ensures Commands(Run(START_UP, es).handled) == Arrived(START_UP, es)
  {
    if es == [] {
    } else {
      var n := |es| - 1;
      HandledAreArrived(es[..n]);
      RunKeepsCore(es[..n]);
      HandledGrows(Run(START_UP, es[..n]), es[n]);
    }
  }

  // ---------- tuner ids, end to end ----------

  /** In every reachable state the payload of GET_TUNERS is at most 4 + 100 * (4 + 10 + 1) octets. */
  lemma {:induction false} TunersFit(es: seq<Event>)
    ensures |ListPayload(TunerRecords(Run(START_UP, es).hal.slots))| <= 1504
  {
    RunKeepsCore(es);
    var slots := Run(START_UP, es).hal.slots;
    ShortTuners(slots);
    TunersLength(TunerRecords(slots));
  }

  lemma TunerRecordsListed(slots: seq<DeviceInfo>)
    requires |slots| <= MAX_DEVICE_NUM && forall i :: 0 <= i < |slots| ==> slots[i].kind == TunerInput
    ensures var rs := TunerRecords(slots);
            && |rs| == |slots|
            && (forall k :: 0 <= k < |rs| ==> rs[k] == TunerRec(Tuner(PrintId(slots[k].deviceId), [])))
  {
    AllTuners(slots);
  }

  lemma TunerListDecodes(rs: List32<Record>)
    requires forall k :: 0 <= k < |rs| ==> rs[k].TunerRec?
    ensures DecodeList(TunerKind, ListPayload(rs)) == Some((rs, []))
  {
    var n: u32 := |rs| % TWO32;
    assert n == |rs|;
    ListReplyReadsBack(TunerKind, rs, ListPayload(rs));
    assert VisibleAll(TunerKind, rs) == rs;
  }

  /** The GET_TUNERS reply of every reachable state lists every slot, in table order, with its printed id. */
  lemma {:induction false} TunersListed(es: seq<Event>)
    ensures var slots := Run(START_UP, es).hal.slots; var rs := TunerRecords(slots);
            && |rs| == |slots|
            && (forall k :: 0 <= k < |rs| ==> rs[k] == TunerRec(Tuner(PrintId(slots[k].deviceId), [])))
            && DecodeList(TunerKind, ListPayload(rs)) == Some((rs, []))
  {
    RunKeepsCore(es);
    var slots := Run(START_UP, es).hal.slots;
    TunerRecordsListed(slots);
    TunerListDecodes(TunerRecords(slots));
  }

  lemma SourceReadsBack(cmd: Pdu, id: CStr, sourceType: byte)
    requires cmd.data == EncodeFields(SourceFields(id, sourceType))
    ensures ReadSource(cmd) == Some(id)
  {
    SourceReads(id, sourceType, []);
    assert cmd.data + [] == cmd.data;
  }

  /**
   A client that sends the k-th id of the GET_TUNERS reply back in SET_SOURCE reaches the k-th device
   exactly when that device's id is non-negative and does not start with 10.
   */
  lemma {:induction false} TunerIdNamesDeviceIff(es: seq<Event>, reply: seq<Record>, k: nat, cmd: Pdu, sourceType: byte)
    requires DecodeList(TunerKind, ListPayload(TunerRecords(Run(START_UP, es).hal.slots))) == Some((reply, []))
    requires k < |reply| && reply[k].TunerRec?
    requires cmd.data == EncodeFields(SourceFields(reply[k].tuner.id, sourceType))
    ensures var slots := Run(START_UP, es).hal.slots;
            && |reply| == |slots| && ReadSource(cmd).Some?
            && var d := slots[k].deviceId; ParseId(ReadSource(cmd).value) == d <==> d >= 0 && !StartsWith10(d)
  {
    TunersListed(es);
    var d := Run(START_UP, es).hal.slots[k].deviceId;
    SourceReadsBack(cmd, PrintId(d), sourceType);
    IdReturnsIff(d);
  }

  /** The stream that a successful call opens is there afterwards, for this device. */
  lemma FreshStreamOpens(h: Hal, id: i32, a: DeviceTable.Answers)
    requires h.up && Requested(a).Some? && a.closeResult == 0 && a.openResult == 0
    requires !AlreadyActing(h, id, Requested(a).value)
    ensures DeviceTable.GetStream(h, id, a).1 == TV_STATUS_SUCCESS
    ensures StreamKey(id, Requested(a).value) in DeviceTable.GetStream(h, id, a).0.open
  {
  }

  /**
   From table to stream and back to the client: SET_SOURCE with the printed id of slot k, when the driver
   plays along, opens the first independent video source of slot k's device and answers with the octets of
   the handle and its descriptors, for every id that is non-negative and does not start with 10.
   */
  lemma {:induction false} SetSourceReachesDevice(es: seq<Event>, k: nat, cmd: Pdu, sourceType: byte, env: CommandEnv, i: nat)
    requires var s := Run(START_UP, es);
             && Enabled(s, Command(cmd, env)) && s.dtvSend && k < |s.hal.slots|
             && cmd.service == SERVICE_DTV && cmd.opcode == 2
             && cmd.data == EncodeFields(SourceFields(PrintId(s.hal.slots[k].deviceId), sourceType))
             && s.hal.slots[k].deviceId >= 0 && !StartsWith10(s.hal.slots[k].deviceId)
             && env.answers.configs.Some? && FirstSource(env.answers.configs.value, i)
             && env.answers.closeResult == 0 && env.answers.openResult == 0
             && !AlreadyActing(s.hal, s.hal.slots[k].deviceId, env.answers.configs.value[i].streamId)
             && env.memoryOk && |HandlePayload(env.handle)| <= PDU_MAX_DATA_LENGTH
    ensures var s := Run(START_UP, es); var s' := Step(s, Command(cmd, env)); var m := HandlePayload(env.handle);
            && StreamKey(s.hal.slots[k].deviceId, env.answers.configs.value[i].streamId) in s'.hal.open
            && SpellsHandle(m, env.handle)
            && s'.io.accepted == s.io.accepted + [Msg(1, 2, m, env.handle.data[..env.handle.numFds])]
  {
    RequestedAt(env.answers, i);
    HandleIsSpelled(env.handle);
    RunKeepsCore(es);
    var s := Run(START_UP, es);
    var d := s.hal.slots[k].deviceId;
    SourceReadsBack(cmd, PrintId(d), sourceType);
    IdReturnsIff(d);
    FreshStreamOpens(s.hal, d, env.answers);
    DtvOpcodes(cmd.opcode);
  }

  lemma GetTunersDispatch(s: State, cmd: Pdu, env: CommandEnv)
    requires Lifecycle(s) && s.dtvSend && cmd.service == SERVICE_DTV && cmd.opcode == 1
    ensures Dispatch(s, cmd, env) == Respond(s, cmd, ListPayload(TunerRecords(s.hal.slots)), [], env)
  {
    assert Lookup(cmd.opcode, DtvTable()) == Some(GetTuners);
  }

  lemma GetTunersStep(s: State, cmd: Pdu, env: CommandEnv, payload: seq<byte>)
    requires Enabled(s, Command(cmd, env)) && !Faulted(s) && env.memoryOk && |payload| <= PDU_MAX_DATA_LENGTH
    requires Dispatch(s, cmd, env) == Respond(s, cmd, payload, [], env)
    ensures var s' := Step(s, Command(cmd, env));
            s'.io.accepted == s.io.accepted + [Msg(cmd.service, cmd.opcode, payload, [])] && s'.running
  {
  }

  /** GET_TUNERS never fails for want of room: in every reachable state it is answered with the whole table. */
  lemma {:induction false} GetTunersAnswers(es: seq<Event>, cmd: Pdu, env: CommandEnv)
    requires var s := Run(START_UP, es);
             && Enabled(s, Command(cmd, env)) && s.dtvSend && env.memoryOk
             && cmd.service == SERVICE_DTV && cmd.opcode == 1
    ensures var s := Run(START_UP, es); var s' := Step(s, Command(cmd, env));
            && s'.io.accepted == s.io.accepted + [Msg(SERVICE_DTV, 1, ListPayload(TunerRecords(s.hal.slots)), [])]
            && s'.running
  {
    RunKeepsCore(es);
    TunersFit(es);
    var s := Run(START_UP, es);
    GetTunersDispatch(s, cmd, env);
    GetTunersStep(s, cmd, env, ListPayload(TunerRecords(s.hal.slots)));
  }
}
