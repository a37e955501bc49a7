/**
  ext/asyncengine/ae_tcp.c as it is written: a socket whose fields its callbacks and methods
  update one after another. Each is proved to do what TcpSpec says it does.

  The libuv calls are methods too, and demand what libuv demands: an open handle for
  everything, so that no handle can be closed twice or used after it was closed.
 */
module Tcp {
  import opened TcpSpec

  class TcpSocket {
    var open: bool          // _uv_handle != NULL
    var status: Status
    var flags: Flags
    var timer: bool         // _uv_timer_connect_timeout != NULL
    var uv: UvTcp
    var timers: UvTimers
    var stored: bool
    var calls: seq<Callback>

    ghost function State(): Sock
      reads this
    {
      Sock(open, status, flags, timer, uv, timers, stored, calls)
    }

    ghost predicate Valid()
      reads this
    {
      Inv(State())
    }

    // init_instance, from the line that fills cdata.
    constructor (uv: UvTcp)
      requires uv == CREATED.uv
      ensures State() == CREATED && Valid()
    {
      open, status, flags, timer := true, Connecting, Flags(false, false, false, false), false;
      this.uv, timers := uv, UvTimers(0, 0, 0);
      stored, calls := true, [];
    }

    // -------- libuv --------

    method UvClose()
      requires uv.closes == 0
      modifies this`uv
      ensures uv == old(uv).(closes := 1, reading := false)
    {
      uv := uv.(closes := uv.closes + 1, reading := false);
    }

    method UvReadStart()
      requires uv.closes == 0
      modifies this`uv
      ensures uv == old(uv).(reading := true)
    {
      uv := uv.(reading := true);
    }

    method UvReadStop()
      requires uv.closes == 0
      modifies this`uv
      ensures uv == old(uv).(reading := false)
    {
      uv := uv.(reading := false);
    }

    method UvShutdown(ok: bool) returns (failed: bool)
      requires uv.closes == 0
      modifies this`uv
      ensures failed == !ok
      ensures uv == if ok then old(uv).(shutdownReqs := old(uv).shutdownReqs + 1) else old(uv)
    {
      if ok {
        uv := uv.(shutdownReqs := uv.shutdownReqs + 1);
      }
      failed := !ok;
    }

    method UvWrite(ok: bool) returns (failed: bool)
      requires uv.closes == 0
      modifies this`uv
      ensures failed == !ok
      ensures uv == if ok then old(uv).(writeReqs := old(uv).writeReqs + 1) else old(uv)
    {
      if ok {
        uv := uv.(writeReqs := uv.writeReqs + 1);
      }
      failed := !ok;
    }

    // A call to the program. Whatever it does to this socket comes after.
    method Funcall(c: Callback)
      modifies this`calls
      ensures calls == old(calls) + [c]
    {
      calls := calls + [c];
    }

    // -------- ae_tcp.c --------

    method CancelTimerConnectTimeout()
      requires timer && timers.made > timers.closes
      modifies this`timer, this`timers
      ensures !timer
      ensures timers == old(timers).(closes := old(timers).closes + 1, closing := old(timers).closing + 1)
    {
      assert timer;
      timers := timers.(closes := timers.closes + 1, closing := timers.closing + 1);
      timer := false;
    }

    method ConnectCallback(ok: bool)
      requires Valid() && Enabled(State(), UvConnect(ok))
      modifies this
      ensures Valid() && State() == Apply(old(State()), TcpSpec.Event.UvConnect(ok))
    {
      StepKeeps(State(), UvConnect(ok));
      uv := uv.(connectReq := false);
      if timer {
        CancelTimerConnectTimeout();
      }
      if ok {
        if flags.shutdownRequested {
          UvReadStop();
          var failed := UvShutdown(true);
        } else {
          UvReadStart();
        }
        status := Connected;
      } else if uv.closes == 0 {
        UvClose();
        open := false;
      }
      if ok {
        Funcall(OnConnected);
      } else {
        stored := false;
        if !flags.connectTimeout {
          Funcall(OnConnectionError(LastError));
        } else {
          Funcall(OnConnectionError(TimedOut));
        }
      }
    }

    method ReadCallback(what: Read)
      requires Valid() && Enabled(State(), UvRead(what))
      modifies this
      ensures Valid() && State() == Apply(old(State()), UvRead(what))
    {
      StepKeeps(State(), UvRead(what));
      match what
      case ReadNothing =>
      case ReadEof =>
        UvReadStop();
        var failed := UvShutdown(true);
        flags := flags.(eofReceived := true);
      case ReadError =>
        UvClose();
        open := false;
        stored := false;
        Funcall(OnDisconnected(LastError));
      case ReadData =>
        Funcall(OnDataReceived);
    }

    method ShutdownCallback()
      requires Valid() && Enabled(State(), TcpSpec.Event.UvShutdown)
      modifies this
      ensures Valid() && State() == Apply(old(State()), TcpSpec.Event.UvShutdown)
    {
      StepKeeps(State(), TcpSpec.Event.UvShutdown);
      uv := uv.(shutdownReqs := uv.shutdownReqs - 1);
      if open && uv.closes == 0 {
        UvClose();
        open := false;
      } else {
        return;
      }
      stored := false;
      if flags.eofReceived {
        Funcall(OnDisconnected(Eof));
      } else {
        Funcall(OnDisconnected(NoError));
      }
    }

    // `run` tells whether the block given to send_data is called.
    method WriteCallback(ok: bool, block: bool) returns (run: bool)
      requires Valid() && Enabled(State(), TcpSpec.Event.UvWrite(ok, block))
      modifies this
      ensures Valid() && State() == Apply(old(State()), TcpSpec.Event.UvWrite(ok, block))
      ensures run <==> EntersRuby(old(State()), TcpSpec.Event.UvWrite(ok, block))
    {
      StepKeeps(State(), TcpSpec.Event.UvWrite(ok, block));
      uv := uv.(writeReqs := uv.writeReqs - 1);
      run := false;
      if block {
        if !flags.releasing {
          run := true;
        }
      }
    }

    method TimerConnectTimeoutCallback()
      requires Valid() && Enabled(State(), UvTimeout)
      modifies this
      ensures Valid() && State() == Apply(old(State()), UvTimeout)
    {
      StepKeeps(State(), UvTimeout);
      assert timer;
      CancelTimerConnectTimeout();
      flags := flags.(connectTimeout := true);
      UvClose();
      open := false;
    }

    method SendData(ok: bool) returns (ret: Ret)
      requires Valid()
      modifies this
      ensures Valid() && Outcome(State(), ret) == Perform(old(State()), DoSendData(ok))
    {
      StepKeeps(State(), DoSendData(ok));
      if !open {
        return False;
      }
      var failed := UvWrite(ok);
      if failed {
        return Raised;
      }
      return True;
    }

    method SetConnectTimeout(ok: bool) returns (ret: Ret)
      requires Valid()
      modifies this
      ensures Valid() && Outcome(State(), ret) == Perform(old(State()), DoSetConnectTimeout(ok))
    {
      StepKeeps(State(), DoSetConnectTimeout(ok));
      if !open {
        return False;
      }
      if status.Connected? || timer {
        return Nil;
      }
      timer, timers := true, timers.(made := timers.made + 1);
      if !ok {
        if timer {
          CancelTimerConnectTimeout();
        }
        return Raised;
      }
      return True;
    }

    method Close() returns (ret: Ret)
      requires Valid()
      modifies this
      ensures Valid() && Outcome(State(), ret) == Perform(old(State()), DoClose)
    {
      StepKeeps(State(), DoClose);
      if !open {
        return False;
      }
      assert uv.closes == 0 && (timer ==> timers.made > timers.closes);
      hide Inv;
      UvClose();
      open := false;
      if timer {
        CancelTimerConnectTimeout();
      }
      assert State() == CancelTimerIfAny(CloseUv(old(State())));
      if status.Connected? {
        stored := false;
        Funcall(OnDisconnected(NoError));
      }
      return True;
    }

    method CloseGracefully(ok: bool) returns (ret: Ret)
      requires Valid()
      modifies this
      ensures Valid() && Outcome(State(), ret) == Perform(old(State()), DoCloseGracefully(ok))
    {
      StepKeeps(State(), DoCloseGracefully(ok));
      if !open {
        return False;
      }
      if flags.shutdownRequested {
        return False;
      }
      if status.Connected? {
        UvReadStop();
        var failed := UvShutdown(ok);
        if failed {
          return Raised;
        }
      }
      flags := flags.(shutdownRequested := true);
      return True;
    }

    method Destroy() returns (ret: Ret)
      requires Valid()
      modifies this
      ensures Valid() && Outcome(State(), ret) == Perform(old(State()), DoDestroy)
    {
      StepKeeps(State(), DoDestroy);
      if !open {
        return False;
      }
      assert uv.closes == 0 && (timer ==> timers.made > timers.closes);
      hide Inv;
      UvClose();
      open := false;
      if timer {
        CancelTimerConnectTimeout();
      }
      assert State() == CancelTimerIfAny(CloseUv(old(State())));
      flags := flags.(releasing := true);
      if status.Connected? {
        stored := false;
        Funcall(OnDisconnected(NoError));
      }
      return True;
    }
  }

  // A uv_tcp_t that init_instance works on before a socket has it.
  class TcpHandle {
    var uv: UvTcp

    // uv_tcp_init.
    constructor ()
      ensures uv == UvTcp(0, false, false, false, 0, 0)
    {
      uv := UvTcp(0, false, false, false, 0, 0);
    }

    method UvConnect(ok: bool) returns (failed: bool)
      requires uv.closes == 0 && !uv.connectReq
      modifies this`uv
      ensures failed == !ok && uv == old(uv).(connectReq := ok)
    {
      uv := uv.(connectReq := ok);
      failed := !ok;
    }

    method UvClose()
      requires uv.closes == 0
      modifies this`uv
      ensures uv == old(uv).(closes := 1)
    {
      uv := uv.(closes := uv.closes + 1);
    }
  }

  // init_instance. Whichever libuv call fails, a handle that was initialised is given to
  // uv_close once and has no request, and no socket is made; the caller raises. When none
  // fails the socket has the handle, open and connecting.
  method InitInstance(initOk: bool, bind: bool, bindOk: bool, connectOk: bool)
    returns (socket: TcpSocket?, handle: TcpHandle?)
    ensures handle == null <==> !initOk
    ensures socket != null <==> initOk && (bind ==> bindOk) && connectOk
    ensures handle != null ==> fresh(handle) && handle.uv.closes == (if socket == null then 1 else 0)
    ensures handle != null && socket == null ==> !handle.uv.connectReq
    ensures socket != null ==> fresh(socket) && socket.State() == CREATED && socket.Valid() && socket.uv == handle.uv
  {
    socket, handle := null, null;
    if !initOk {
      return;
    }
    handle := new TcpHandle();
    if bind {
      if !bindOk {
        handle.UvClose();
        return;
      }
    }
    var failed := handle.UvConnect(connectOk);
    if failed {
      handle.UvClose();
      return;
    }
    socket := new TcpSocket(handle.uv);
  }
}
