/**
 The send queue and the event mask of src/io.c as a state machine. The environment decides how many
 buffers the transport takes before it would block, and whether the event loop accepts a registration.
 */
module SendQueue {
  import opened Base

  /** A finished PDU: its payload, and the descriptors that travel with it. */
  datatype Msg = Msg(service: byte, opcode: byte, payload: seq<byte>, fds: seq<u32>)

  /** The flags of an event mask; a mask is the set of the flags that are 1 in it. */
  datatype EpollFlag = EPOLLIN | EPOLLOUT | EPOLLERR
  type Mask = set<EpollFlag>

  datatype Env = Env(accepts: nat, addOk: bool)

  /**
   struct io_state with the history of its buffers. `registered` is the mask the event loop holds for
   the descriptor. accepted, done and destroyed list the buffers that were handed to io_state_send,
   that the transport is done with, and that were freed; lastSendOk: the last io_state_send returned 0.
   */
  datatype Io = Io(
    connected: bool, mask: Mask, registered: Option<Mask>, sendq: seq<Msg>,
    accepted: seq<Msg>, done: seq<Msg>, destroyed: seq<Msg>, lastSendOk: bool)

  // ---------- the steps ----------

  function Min(a: nat, b: nat): nat {
    if a <= b then a else b
  }

  /** io_state_send_pending_wbufs: as many buffers as the transport takes leave at the head. */
  function Flush(io: Io, accepts: nat): Io {
    var k := Min(accepts, |io.sendq|);
    io.(sendq := io.sendq[k..], done := io.done + io.sendq[..k], destroyed := io.destroyed + io.sendq[..k])
  }

  /** io_state_send. */
  function Send(io: Io, m: Msg, env: Env): (Io, int) {
    var f := Flush(io.(sendq := io.sendq + [m], accepted := io.accepted + [m]), env.accepts);
    if f.sendq != [] && EPOLLOUT !in f.mask then
      if env.addOk then (f.(mask := f.mask + {EPOLLOUT}, registered := Some(f.mask + {EPOLLOUT}), lastSendOk := true), 0)
      else (f.(lastSendOk := false), -1)
    else (f.(lastSendOk := true), 0)
  }

  /** Watching for one event less; the descriptor leaves the loop when no event is left. */
  function StopWatching(io: Io, mask: Mask, addOk: bool): (Io, int) {
    if mask != {} then
      if addOk then (io.(mask := mask, registered := Some(mask)), 0) else (io.(mask := mask), -1)
    else (io.(mask := mask, registered := None), 0)
  }

  /** io_state_out. */
  function Out(io: Io, env: Env): (Io, int) {
    var f := Flush(io, env.accepts);
    if f.sendq == [] then StopWatching(f, f.mask - {EPOLLOUT}, env.addOk) else (f, 0)
  }

  /** The part of io_state_in for a peer that hung up: no more input. */
  function InHangup(io: Io, addOk: bool): (Io, int) {
    StopWatching(io, io.mask - {EPOLLIN}, addOk)
  }

  /** io_state_err and io_state_hup. */
  function Close(io: Io): Io {
    io.(connected := false, mask := {}, registered := None)
  }

  /** connected_socket and a successful start_main_loop. */
  const STARTED := Io(true, {EPOLLERR, EPOLLIN}, Some({EPOLLERR, EPOLLIN}), [], [], [], [], true)

  // ---------- what every step keeps ----------

  predicate Armed(mask: Mask) {
    EPOLLOUT in mask
  }

  /**
   While connected: the loop holds exactly our mask, errors are watched for, and a non-empty queue
   waits for EPOLLOUT exactly when the very last send could register.
   */
  ghost predicate Live(io: Io) {
    io.connected ==>
      && io.registered == Some(io.mask)
      && EPOLLERR in io.mask
      && (io.sendq != [] ==> (io.lastSendOk <==> Armed(io.mask)))
  }

  /** Buffers are neither lost, nor reordered, nor freed before the transport is done, nor freed twice. */
  ghost predicate Conserved(io: Io) {
    io.accepted == io.done + io.sendq && io.destroyed == io.done
  }

  lemma ErrorsWatched(m: Mask)
    requires EPOLLERR in m
    ensures EPOLLERR in m - {EPOLLOUT} && EPOLLERR in m - {EPOLLIN}
    ensures m - {EPOLLOUT} != {} && m - {EPOLLIN} != {}
  {
  }

  lemma FlushConserves(io: Io, accepts: nat)
    requires Conserved(io)
    ensures Conserved(Flush(io, accepts))
    ensures io.done <= Flush(io, accepts).done
    ensures |io.sendq| > accepts ==> Flush(io, accepts).sendq[0] == io.sendq[accepts]
  {
  }

  /** A send keeps both invariants whether or not the registration succeeds. */
  lemma SendKeeps(io: Io, m: Msg, env: Env)
    requires Live(io) && Conserved(io)
    ensures var io' := Send(io, m, env).0;
            Live(io') && Conserved(io') && io'.accepted == io.accepted + [m] && io'.connected == io.connected
  {
    var q := io.(sendq := io.sendq + [m], accepted := io.accepted + [m]);
    ConcatAssociates(io.done, io.sendq, [m]);
    FlushConserves(q, env.accepts);
  }

  /** An out step keeps both; when the queue is drained EPOLLOUT is cleared. A failed registration ends the daemon. */
  lemma OutKeeps(io: Io, env: Env)
    requires Live(io) && Conserved(io) && io.connected
    ensures var (io', res) := Out(io, env);
            && Conserved(io') && io'.accepted == io.accepted && io'.connected
            && (res == 0 ==> Live(io') && (io'.sendq == [] ==> !Armed(io'.mask)))
            && (res != 0 ==> !env.addOk)
  {
    ErrorsWatched(io.mask);
    FlushConserves(io, env.accepts);
  }

  lemma InHangupKeeps(io: Io, addOk: bool)
    requires Live(io) && Conserved(io) && io.connected
    ensures var (io', res) := InHangup(io, addOk);
            Conserved(io') && io'.accepted == io.accepted && io'.connected && (res == 0 ==> Live(io'))
  {
    ErrorsWatched(io.mask);
  }

  /** The branches that take a connected descriptor out of the loop for want of events are never taken. */
  lemma DescriptorStaysWatched(io: Io, env: Env)
    requires Live(io) && io.connected
    ensures Out(io, env).0.registered.Some? && InHangup(io, env.addOk).0.registered.Some?
    ensures EPOLLERR in Out(io, env).0.mask && EPOLLERR in InHangup(io, env.addOk).0.mask
  {
    ErrorsWatched(io.mask);
  }

  /** A send that leaves messages behind leaves EPOLLOUT watched for exactly when it was already, or the loop accepts it now. */
  lemma SendArmsIff(io: Io, m: Msg, env: Env)
    requires Live(io) && io.connected
    ensures var io' := Send(io, m, env).0;
            io'.sendq != [] ==> (Armed(io'.mask) <==> Armed(io.mask) || env.addOk)
  {
  }

  /** Messages are queued, and no wakeup is asked for. */
  predicate Stalled(io: Io) {
    io.sendq != [] && !Armed(io.mask)
  }

  /** The next send ends a stall exactly when the transport takes the whole queue at once or the loop accepts EPOLLOUT. */
  lemma SendEndsStallIff(io: Io, m: Msg, env: Env)
    requires Stalled(io)
    ensures Stalled(Send(io, m, env).0) <==> env.accepts <= |io.sendq| && !env.addOk
  {
  }
}
