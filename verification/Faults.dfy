/**
 Accesses to memory that the daemon does not have: a NULL device, a slot behind the array, a tail that is not there,
 subtitle languages behind the last one.
 */
module Faults {
  import opened Base
  import opened Wire
  import opened Records
  import opened TunerIds
  import opened DeviceTable
  import opened SendQueue
  import opened Services
  import opened Runs

  /** set_source records a stream behind the array of slots, or writes descriptors to a reply that was not allocated. */
  predicate SourceFaulty(h: Hal, id: i32, env: CommandEnv) {
    || RecordsOutside(h, id, env.answers)
    || (Grants(h, id, env.answers) && TailMissing(HandleRead(h, id, env), env))
  }

  /** The vendor library hands get_programs a program with fewer subtitle than audio languages. */
  ghost predicate ProgramsFaulty(cmd: Pdu, env: CommandEnv) {
    Agrees(GetProgramsCall(cmd), env) && !AllReadable(env.programs)
  }

  /** The event makes the daemon do one of these, or close a stream through NULL. */
  ghost predicate Faulty(s: State, e: Event) {
    match e
    case HotPlugged(event) => ClosesWithoutDevice(s.hal, event)
    case Command(cmd, env) =>
      || (ReachesSetSource(s, cmd) && SourceFaulty(s.hal, ParseId(ReadSource(cmd).value), env))
      || (ReachesGetPrograms(s, cmd) && ProgramsFaulty(cmd, env))
    case Notified(tunerId, _, n, _) => tunerId.Some? && LanguagesMissing(n)
    case _ => false
  }

  predicate ReachesGetPrograms(s: State, cmd: Pdu) {
    Lookup(cmd.service, s.handlers) == Some(DtvHandler) && Lookup(cmd.opcode, DtvTable()) == Some(GetPrograms)
  }

  lemma SetSourceFaultsIff(s: State, cmd: Pdu, env: CommandEnv)
    requires TableOk(s) && s.hal.up && !Faulted(s) && ReadSource(cmd).Some?
    ensures Faulted(HandleSetSource(s, cmd, env).0) <==> SourceFaulty(s.hal, ParseId(ReadSource(cmd).value), env)
  {
    GetStreamFaultsIff(s.hal, ParseId(ReadSource(cmd).value), env.answers);
  }

  /** No handler but set_source and get_programs touches memory it does not have. */
  lemma DtvFaultsIff(s: State, cmd: Pdu, env: CommandEnv)
    requires Lifecycle(s) && TableOk(s) && s.dtvSend && !Faulted(s)
    ensures Faulted(HandleDtv(s, cmd, env).0) <==>
            match Lookup(cmd.opcode, DtvTable())
            case None => false
            case Some(command) =>
              match command
              case SetSource => ReadSource(cmd).Some? && SourceFaulty(s.hal, ParseId(ReadSource(cmd).value), env)
              case GetPrograms => ProgramsFaulty(cmd, env)
              case _ => false
  {
    match Lookup(cmd.opcode, DtvTable())
    case None =>
    case Some(command) =>
      match command
      case SetSource =>
        if ReadSource(cmd).Some? {
          SetSourceFaultsIff(s, cmd, env);
        }
      case _ =>
  }

  lemma RegistryHasNoFault(s: State, cmd: Pdu, env: CommandEnv)
    requires Lifecycle(s) && TableOk(s)
    ensures SameFaults(s, HandleRegistry(s, cmd, env).0)
  {
    RegistryOpcodes(cmd.opcode);
    if cmd.opcode == 1 { RegisterResponds(s, cmd, env); }
    if cmd.opcode == 2 { UnregisterResponds(s, cmd, env); }
  }

  lemma DispatchFaultsIff(s: State, cmd: Pdu, env: CommandEnv)
    requires Lifecycle(s) && TableOk(s) && !Faulted(s)
    ensures Faulted(Dispatch(s, cmd, env).0) <==> Faulty(s, Command(cmd, env))
  {
    match Lookup(cmd.service, s.handlers)
    case None =>
    case Some(handler) =>
      match handler
      case RegistryHandler => RegistryHasNoFault(s, cmd, env);
      case DtvHandler =>
        DtvOpcodes(cmd.opcode);
        DtvFaultsIff(s, cmd, env);
  }

  /** A step in any reachable state makes such an access exactly for these events; nothing is sent in it. */
  lemma StepFaultsIff(s: State, e: Event)
    requires Core(s) && Enabled(s, e)
    ensures Faulted(Step(s, e)) <==> Faulty(s, e)
    ensures Faulted(Step(s, e)) ==> !Step(s, e).running && Step(s, e).io == s.io
  {
    match e
    case Command(cmd, env) =>
      DispatchFaultsIff(s, cmd, env);
      DispatchResponds(s, cmd, env);
      CommandReplies(s, cmd, env);
    case HotPlugged(event) => NotifyFaultsIff(s.hal, event);
    case _ =>
  }

  /** The n-th event of the run finds the daemon in a state in which it is one of these. */
  ghost predicate FaultAt(es: seq<Event>, n: nat)
    requires n < |es|
  {
    var s := Run(START_UP, es[..n]);
    Enabled(s, es[n]) && Faulty(s, es[n])
  }

  ghost predicate MeetsFault(es: seq<Event>) {
    exists n :: 0 <= n < |es| && FaultAt(es, n)
  }

  lemma FaultAtPrefix(es: seq<Event>, n: nat)
    requires n < |es| - 1
    ensures FaultAt(es[..|es| - 1], n) <==> FaultAt(es, n)
  {
    assert es[..|es| - 1][..n] == es[..n];
  }

  lemma MeetsFaultSnoc(es: seq<Event>)
    requires es != []
    ensures MeetsFault(es) <==> MeetsFault(es[..|es| - 1]) || FaultAt(es, |es| - 1)
  {
    forall n | 0 <= n < |es| - 1
      ensures FaultAt(es[..|es| - 1], n) <==> FaultAt(es, n)
    {
      FaultAtPrefix(es, n);
    }
    if MeetsFault(es[..|es| - 1]) {
      var n :| 0 <= n < |es| - 1 && FaultAt(es[..|es| - 1], n);
      assert FaultAt(es, n);
    }
  }

  /** A run makes such an access exactly when it meets such an event. */
  lemma {:induction false} RunFaultsIff(es: seq<Event>)
    ensures Faulted(Run(START_UP, es)) <==> MeetsFault(es)
  {
    if es == [] {
    } else {
      var front, e := es[..|es| - 1], es[|es| - 1];
      var s := Run(START_UP, front);
      RunFaultsIff(front);
      RunKeepsCore(front);
      MeetsFaultSnoc(es);
      if Enabled(s, e) {
        StepFaultsIff(s, e);
      }
    }
  }

  // ---------- the end of a run ----------

  /** A send leaves messages behind, EPOLLOUT was not watched for, and the loop does not accept it. */
  predicate CannotRegister(io: Io, env: Env) {
    env.accepts <= |io.sendq| && EPOLLOUT !in io.mask && !env.addOk
  }

  /**
   These events end the run: a failed read, a hang-up of the socket, a registration that the loop refuses when the
   peer hangs up, when the queue is drained or for an error PDU, an error PDU without memory, and the faults above.
   */
  ghost predicate Ends(s: State, e: Event) {
    match e
    case ReadFailed => true
    case SocketHup => true
    case PeerHangup(addOk) => !addOk
    case Writable(env) => |s.io.sendq| <= env.accepts && !env.addOk
    case Command(cmd, env) =>
      || Faulty(s, e)
      || (Dispatch(s, cmd, env).1 != 0 && (!env.errorMemoryOk || CannotRegister(s.io, env.send)))
    case _ => Faulty(s, e)
  }

  lemma CommandEndsIff(s: State, cmd: Pdu, env: CommandEnv)
    requires Core(s) && s.running
    ensures HandleCommand(s, cmd, env).running <==> !Ends(s, Command(cmd, env))
  {
    DispatchFaultsIff(s, cmd, env);
    DispatchResponds(s, cmd, env);
  }

  lemma QueueEndsIff(s: State, e: Event)
    requires Core(s) && Enabled(s, e) && (e.PeerHangup? || e.Writable?)
    ensures Step(s, e).running <==> !Ends(s, e)
  {
    ErrorsWatched(s.io.mask);
  }

  /** The daemon stops exactly at these events; every other event finds it running afterwards. */
  lemma StepEndsIff(s: State, e: Event)
    requires Core(s) && Enabled(s, e)
    ensures Step(s, e).running <==> !Ends(s, e)
  {
    match e
    case Command(cmd, env) => CommandEndsIff(s, cmd, env);
    case PeerHangup(_) => QueueEndsIff(s, e);
    case Writable(_) => QueueEndsIff(s, e);
    case HotPlugged(event) => NotifyFaultsIff(s.hal, event);
    case _ =>
  }
}
