/** src/io.c: struct io_state and the functions that update it. */
module IoStates {
  import opened Base
  import opened SendQueue

  class IoState {
    var fd: int
    var epollEvents: Mask
    var rbuf: bool                        // a receive buffer is there
    var sendq: seq<Msg>
    ghost var registered: Option<Mask>    // the mask in the event loop
    ghost var accepted: seq<Msg>
    ghost var done: seq<Msg>
    ghost var destroyed: seq<Msg>
    ghost var lastSendOk: bool

    ghost function View(): Io
      reads this
    {
      Io(fd != -1, epollEvents, registered, sendq, accepted, done, destroyed, lastSendOk)
    }

    /** IO_STATE_INITIALIZER */
    constructor ()
      ensures View() == Io(false, {}, None, [], [], [], [], true) && !rbuf
    {
      fd, epollEvents, rbuf, sendq := -1, {}, false, [];
      registered, accepted, done, destroyed, lastSendOk := None, [], [], [], true;
    }

    /** fd_con_out: connected_socket, then start_main_loop without init_registry. */
    method Connect(fd: int, memoryOk: bool, addOk: bool) returns (res: int)
      requires fd != -1
      requires View() == Io(false, {}, None, [], [], [], [], true)
      modifies this
      ensures res == 0 <==> !old(rbuf) && memoryOk && addOk
      ensures res == 0 ==> View() == STARTED
    {
      if rbuf {
        return -1;
      }
      if !memoryOk {
        return -1;
      }
      this.fd, epollEvents, rbuf, sendq := fd, {EPOLLERR, EPOLLIN}, true, [];
      if !addOk {
        return -1;
      }
      registered := Some(epollEvents);
      return 0;
    }

    /** send_pdu_wbuf takes `accepts` buffers before it would block. */
    method SendPendingWbufs(accepts: nat)
      modifies `sendq, `done, `destroyed
      ensures View() == Flush(old(View()), accepts)
    {
      var left := accepts;
      ghost var k: nat := 0;
      while sendq != []
        invariant k + left == accepts && k <= |old(sendq)|
        invariant sendq == old(sendq)[k..]
        invariant done == old(done) + old(sendq)[..k]
        invariant destroyed == old(destroyed) + old(sendq)[..k]
        decreases |sendq|
      {
        var wbuf := sendq[0];
        assert old(sendq)[..k + 1] == old(sendq)[..k] + [wbuf];
        if left == 0 {
          return;  // the operation would block; the buffer stays at the head
        }
        left, k := left - 1, k + 1;
        done := done + [wbuf];
        sendq := sendq[1..];
        destroyed := destroyed + [wbuf];
      }
    }

    method StateOut(env: Env) returns (res: int)
      modifies this
      ensures (View(), res) == Out(old(View()), env)
    {
      SendPendingWbufs(env.accepts);
      if sendq == [] {
        epollEvents := epollEvents - {EPOLLOUT};
        if epollEvents != {} {
          if !env.addOk {
            return -1;
          }
          registered := Some(epollEvents);
        } else {
          registered := None;
        }
      }
      return 0;
    }

    method StateSend(wbuf: Msg, env: Env) returns (res: int)
      modifies this
      ensures (View(), res) == Send(old(View()), wbuf, env)
      ensures rbuf == old(rbuf)
    {
      accepted := accepted + [wbuf];
      sendq := sendq + [wbuf];
      SendPendingWbufs(env.accepts);
      lastSendOk := true;
      if sendq != [] && EPOLLOUT !in epollEvents {
        var events := epollEvents + {EPOLLOUT};
        if !env.addOk {
          lastSendOk := false;
          return -1;
        }
        registered := Some(events);
        epollEvents := events;
      }
      return 0;
    }

    method StateInHangup(addOk: bool) returns (res: int)
      modifies this
      ensures (View(), res) == InHangup(old(View()), addOk)
    {
      epollEvents := epollEvents - {EPOLLIN};
      if epollEvents != {} {
        if !addOk {
          return -1;
        }
        registered := Some(epollEvents);
      } else {
        registered := None;
      }
      return 0;
    }

    method StateErr()
      modifies this
      ensures View() == Close(old(View())) && !rbuf
    {
      rbuf := false;
      registered := None;
      epollEvents := {};
      fd := -1;
    }
  }
}
