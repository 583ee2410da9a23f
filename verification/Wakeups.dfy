/** The send queue over whole runs: who waits for a wakeup, and that wakeups drain the queue. */
module Wakeups {
  import opened Base
  import opened SendQueue
  import opened Services
  import opened Runs

  /** The event loop accepts every registration that this event may make. */
  predicate RegistersOk(e: Event) {
    match e
    case Command(_, env) => env.send.addOk
    case PeerHangup(addOk) => addOk
    case Writable(env) => env.addOk
    case TaskRun(_, env) => env.addOk
    case _ => true
  }

  lemma StepKeepsSendOk(s: State, e: Event)
    requires Core(s) && s.io.lastSendOk && RegistersOk(e)
    ensures Step(s, e).io.lastSendOk
  {
    if Enabled(s, e) && e.Command? {
      CommandReplies(s, e.cmd, e.env);
    }
  }

  lemma {:induction false} SendsStayOk(es: seq<Event>)
    requires forall k :: 0 <= k < |es| ==> RegistersOk(es[k])
    ensures Run(START_UP, es).io.lastSendOk
  {
    if es == [] {
    } else {
      SendsStayOk(es[..|es| - 1]);
      RunKeepsCore(es[..|es| - 1]);
      StepKeepsSendOk(Run(START_UP, es[..|es| - 1]), es[|es| - 1]);
    }
  }

  /**
   While the daemon runs and is connected the loop holds exactly our mask, errors are watched for, and
   queued messages wait for EPOLLOUT exactly when the last send could register; so no wakeup is lost
   when no registration fails.
   */
  lemma {:induction false} NoLostWakeup(es: seq<Event>)
    ensures var s := Run(START_UP, es);
            s.running && s.io.connected ==>
              && s.io.registered == Some(s.io.mask) && EPOLLERR in s.io.mask
              && (s.io.sendq != [] ==> (EPOLLOUT in s.io.mask <==> s.io.lastSendOk))
              && ((forall k :: 0 <= k < |es| ==> RegistersOk(es[k])) && s.io.sendq != [] ==> EPOLLOUT in s.io.mask)
  {
    RunKeepsCore(es);
    if forall k :: 0 <= k < |es| ==> RegistersOk(es[k]) {
      SendsStayOk(es);
    }
  }

  /** Messages are accepted behind the old ones; when there are none, a stalled queue is as it was. */
  ghost predicate MovesOn(io: Io, io': Io) {
    && io.accepted <= io'.accepted
    && (Stalled(io) && io'.accepted == io.accepted ==>
          Stalled(io') && io'.sendq == io.sendq && io'.done == io.done)
  }

  lemma SendMovesOn(io: Io, m: Msg, env: Env)
    ensures MovesOn(io, Send(io, m, env).0)
  {
    assert |Send(io, m, env).0.accepted| == |io.accepted| + 1;
  }

  lemma HangupMovesOn(io: Io, addOk: bool)
    ensures MovesOn(io, InHangup(io, addOk).0)
  {
    assert EPOLLOUT !in io.mask ==> EPOLLOUT !in io.mask - {EPOLLIN};
  }

  lemma CloseMovesOn(io: Io)
    ensures MovesOn(io, Close(io))
  {
  }

  lemma OutMovesOn(io: Io, env: Env)
    requires !Stalled(io)
    ensures MovesOn(io, Out(io, env).0)
  {
    assert Out(io, env).0.accepted == io.accepted;
  }

  lemma CommandMovesOn(s: State, cmd: Pdu, env: CommandEnv)
    requires Core(s) && s.running
    ensures MovesOn(s.io, HandleCommand(s, cmd, env).io)
  {
    CommandReplies(s, cmd, env);
    SendMovesOn(s.io, ReplyTo(s, cmd, env), env.send);
  }

  /** No wakeup comes to a stalled queue. */
  lemma WritableIsNotStalled(s: State, env: Env)
    requires s.running ==> Live(s.io)
    ensures Enabled(s, Writable(env)) ==> !Stalled(s.io)
  {
  }

  lemma StepMovesOn(s: State, e: Event)
    requires Core(s)
    ensures MovesOn(s.io, Step(s, e).io)
  {
    if Enabled(s, e) {
      match e
      case Command(cmd, env) => CommandMovesOn(s, cmd, env);
      case TaskRun(i, env) => SendMovesOn(s.io, s.tasks[i], env);
      case Writable(env) =>
        WritableIsNotStalled(s, env);
        OutMovesOn(s.io, env);
      case PeerHangup(addOk) => HangupMovesOn(s.io, addOk);
      case SocketError => CloseMovesOn(s.io);
      case SocketHup => CloseMovesOn(s.io);
      case _ =>
    }
  }

  /**
   What send_pdu's caller never learns: once a send could not register for EPOLLOUT, its messages stay where
   they are, with no wakeup to come, over every stretch of a run in which nothing else is sent.
   */
  lemma {:induction false} StalledUntilSend(s: State, es: seq<Event>, env: Env)
    requires Core(s) && Stalled(s.io) && Run(s, es).io.accepted == s.io.accepted
    ensures var s' := Run(s, es);
            && Stalled(s'.io) && s'.io.sendq == s.io.sendq && s'.io.done == s.io.done
            && !Enabled(s', Writable(env))
  {
    RunFrom(s, es);
    if es == [] {
    } else {
      var front := es[..|es| - 1];
      AcceptedGrows(s, front);
      RunFrom(s, front);
      StepMovesOn(Run(s, front), es[|es| - 1]);
      assert |Run(s, front).io.accepted| == |s.io.accepted|;
      StalledUntilSend(s, front, env);
    }
  }

  lemma {:induction false} AcceptedGrows(s: State, es: seq<Event>)
    requires Core(s)
    ensures s.io.accepted <= Run(s, es).io.accepted
  {
    if es == [] {
    } else {
      AcceptedGrows(s, es[..|es| - 1]);
      RunFrom(s, es[..|es| - 1]);
      StepMovesOn(Run(s, es[..|es| - 1]), es[|es| - 1]);
    }
  }

  function Wakeups(envs: seq<Env>): seq<Event> {
    seq(|envs|, k requires 0 <= k < |envs| => Writable(envs[k]))
  }

  /** One wakeup moves the queue on by what the transport takes, and the next one is due while messages are left. */
  lemma WakeupMoves(s: State, env: Env)
    requires Core(s) && s.running && s.io.connected && s.io.lastSendOk && s.io.sendq != []
    requires env.accepts > 0 && env.addOk
    ensures var s' := Step(s, Writable(env));
            && Enabled(s, Writable(env)) && Core(s') && s'.running && s'.io.connected && s'.io.lastSendOk
            && |s'.io.sendq| < |s.io.sendq| && s'.io.accepted == s.io.accepted
  {
    StepKeepsCore(s, Writable(env));
    OutKeeps(s.io, env);
  }

  lemma {:induction false} WakeupsDrainFrom(s: State, envs: seq<Env>)
    requires Core(s) && s.running && s.io.connected && s.io.lastSendOk && |envs| >= |s.io.sendq|
    requires forall k :: 0 <= k < |envs| ==> envs[k].accepts > 0 && envs[k].addOk
    ensures Run(s, Wakeups(envs)).io.sendq == [] && Run(s, Wakeups(envs)).io.accepted == s.io.accepted
    decreases |envs|
  {
    if envs == [] {
    } else {
      var first, rest := Wakeups(envs[..1]), Wakeups(envs[1..]);
      assert Wakeups(envs) == first + rest && first == [Writable(envs[0])];
      RunConcat(s, first, rest);
      assert Run(s, first) == Step(Run(s, first[..0]), first[0]);
      var s' := Run(s, first);
      StepKeepsCore(s, first[0]);
      if s.io.sendq != [] {
        WakeupMoves(s, envs[0]);
      } else {
        IdleWakeup(s, envs[0]);
      }
      WakeupsDrainFrom(s', envs[1..]);
    }
  }

  lemma IdleWakeup(s: State, env: Env)
    requires Core(s) && s.running && s.io.connected && s.io.lastSendOk && s.io.sendq == [] && env.addOk
    ensures var s' := Step(s, Writable(env));
            s'.running && s'.io.connected && s'.io.lastSendOk && s'.io.sendq == [] && s'.io.accepted == s.io.accepted
  {
    OutKeeps(s.io, env);
  }

  /**
   Every accepted message gets out: after any run without a failed registration, as many wakeups as there
   are queued messages, each with a transport that takes at least one, hand over everything, in order.
   */
  lemma {:induction false} WakeupsDrain(es: seq<Event>, envs: seq<Env>)
    requires forall k :: 0 <= k < |es| ==> RegistersOk(es[k])
    requires var s := Run(START_UP, es); s.running && s.io.connected && |envs| >= |s.io.sendq|
    requires forall k :: 0 <= k < |envs| ==> envs[k].accepts > 0 && envs[k].addOk
    ensures var io := Run(START_UP, es + Wakeups(envs)).io;
            io.sendq == [] && io.done == io.destroyed == Run(START_UP, es).io.accepted
  {
    RunKeepsCore(es);
    SendsStayOk(es);
    RunConcat(START_UP, es, Wakeups(envs));
    WakeupsDrainFrom(Run(START_UP, es), envs);
    RunKeepsCore(es + Wakeups(envs));
    var io := Run(START_UP, es + Wakeups(envs)).io;
    assert io.done + [] == io.done;
  }

  // ---------- hang-ups and errors ----------

  /** When the peer hangs up, input is not watched for any more, and everything else as before. */
  lemma HangupStopsInput(io: Io, addOk: bool)
    requires Live(io) && io.connected
    ensures var (io', res) := InHangup(io, addOk);
            && EPOLLIN !in io'.mask && (EPOLLOUT in io'.mask <==> EPOLLOUT in io.mask) && EPOLLERR in io'.mask
            && (res == 0 <==> addOk) && (addOk ==> io'.registered == Some(io'.mask))
            && io'.sendq == io.sendq && io'.done == io.done && io'.accepted == io.accepted && io'.connected
  {
    ErrorsWatched(io.mask);
  }

  /** Events that come from input on the socket. */
  predicate IsInput(e: Event) {
    e.Command? || e.PeerHangup? || e.ReadFailed?
  }

  predicate IsSocketEvent(e: Event) {
    IsInput(e) || e.Writable? || e.SocketError? || e.SocketHup?
  }

  lemma DeafStep(s: State, e: Event)
    requires Core(s) && EPOLLIN !in s.io.mask
    ensures EPOLLIN !in Step(s, e).io.mask
  {
  }

  lemma {:induction false} DeafRun(s: State, es: seq<Event>)
    requires Core(s) && EPOLLIN !in s.io.mask
    ensures Core(Run(s, es)) && EPOLLIN !in Run(s, es).io.mask
  {
    RunFrom(s, es);
    if es == [] {
    } else {
      DeafRun(s, es[..|es| - 1]);
      DeafStep(Run(s, es[..|es| - 1]), es[|es| - 1]);
    }
  }

  /** Once the daemon has gone on after its peer hung up, no command, hang-up or read error reaches it again. */
  lemma {:induction false} NoInputAfterHangup(es: seq<Event>, addOk: bool, fs: seq<Event>, e: Event)
    requires var s := Run(START_UP, es); Enabled(s, PeerHangup(addOk)) && Step(s, PeerHangup(addOk)).running
    requires IsInput(e)
    ensures !Enabled(Run(Step(Run(START_UP, es), PeerHangup(addOk)), fs), e)
  {
    var s := Run(START_UP, es);
    RunKeepsCore(es);
    HangupStopsInput(s.io, addOk);
    StepKeepsCore(s, PeerHangup(addOk));
    DeafRun(Step(s, PeerHangup(addOk)), fs);
  }

  /** After an error or a hang-up the connection is gone, and nothing is registered or watched for. */
  lemma ErrorDisconnects(s: State, e: Event)
    requires Enabled(s, e) && (e.SocketError? || e.SocketHup?)
    ensures var io := Step(s, e).io;
            && !io.connected && io.registered == None && io.mask == {}
            && io.sendq == s.io.sendq && io.done == s.io.done && io.accepted == s.io.accepted
  {
  }

  lemma {:induction false} DisconnectedRun(s: State, es: seq<Event>)
    requires Core(s) && !s.io.connected
    ensures Core(Run(s, es)) && !Run(s, es).io.connected
  {
    RunFrom(s, es);
    if es == [] {
    } else {
      var front, e := es[..|es| - 1], es[|es| - 1];
      DisconnectedRun(s, front);
    }
  }

  /** No socket event reaches the daemon again. */
  lemma {:induction false} SilentAfterError(es: seq<Event>, e: Event, fs: seq<Event>, f: Event)
    requires Enabled(Run(START_UP, es), e) && (e.SocketError? || e.SocketHup?) && IsSocketEvent(f)
    ensures !Enabled(Run(Step(Run(START_UP, es), e), fs), f)
  {
    var s := Run(START_UP, es);
    RunKeepsCore(es);
    ErrorDisconnects(s, e);
    StepKeepsCore(s, e);
    DisconnectedRun(Step(s, e), fs);
  }
}
