/**
  One TCP socket of ext/asyncengine/ae_tcp.c: the struct_cdata fields, what libuv holds for
  its handles and requests, and the callbacks made so far. Every C function is a function on
  this state; the Ruby callback it makes, if any, is always its last action.
 */
module TcpSpec {
  import opened Wrappers

  datatype Status = Connecting | Connected

  datatype UvError = NoError | LastError | Eof | TimedOut

  datatype Callback =
    | OnConnected
    | OnConnectionError(error: UvError)
    | OnDataReceived
    | OnDisconnected(error: UvError)

  datatype Flags = Flags(releasing: bool, shutdownRequested: bool, connectTimeout: bool, eofReceived: bool)

  // The uv_tcp_t: calls of uv_close, whether its close callback has run, whether it reads,
  // and its requests that have not completed.
  datatype UvTcp = UvTcp(
    closes: nat, closed: bool, reading: bool, connectReq: bool, shutdownReqs: nat, writeReqs: nat)

  // The uv_timer_t handles made for connect timeouts: those made, those given to uv_close,
  // and of these the ones whose close callback has still to run.
  datatype UvTimers = UvTimers(made: nat, closes: nat, closing: nat)

  datatype Sock = Sock(
    open: bool,             // _uv_handle is not NULL
    status: Status,
    flags: Flags,
    timer: bool,            // _uv_timer_connect_timeout is not NULL
    uv: UvTcp,
    timers: UvTimers,
    stored: bool,           // @_handles holds the socket
    calls: seq<Callback>    // callbacks made, oldest first
  )

  // What a method returns to Ruby.
  datatype Ret = True | False | Nil | Raised

  datatype Outcome = Outcome(next: Sock, ret: Ret)

  // init_instance, when uv_tcp_init, the bind and uv_tcp_connect succeed.
  const CREATED := Sock(
    true, Connecting, Flags(false, false, false, false), false,
    UvTcp(0, false, false, true, 0, 0), UvTimers(0, 0, 0), true, [])

  function Call(s: Sock, c: Callback): Sock {
    s.(calls := s.calls + [c])
  }

  // ae_remove_handle, then a callback.
  function RemoveAndCall(s: Sock, c: Callback): Sock {
    Call(s.(stored := false), c)
  }

  // AE_CLOSE_UV_HANDLE(_uv_handle); _uv_handle = NULL.
  function CloseUv(s: Sock): Sock {
    s.(open := false, uv := s.uv.(closes := s.uv.closes + 1, reading := false))
  }

  function CancelTimer(s: Sock): Sock {
    s.(timer := false, timers := s.timers.(closes := s.timers.closes + 1, closing := s.timers.closing + 1))
  }

  function CancelTimerIfAny(s: Sock): Sock {
    if s.timer then CancelTimer(s) else s
  }

  // uv_read_stop and uv_shutdown.
  function BeginShutdown(s: Sock): Sock {
    s.(uv := s.uv.(reading := false, shutdownReqs := s.uv.shutdownReqs + 1))
  }

  // -------- callbacks from libuv --------

  datatype Read = ReadNothing | ReadData | ReadEof | ReadError

  function ConnectError(s: Sock): Callback {
    OnConnectionError(if s.flags.connectTimeout then TimedOut else LastError)
  }

  function ConnectDone(s: Sock, ok: bool): Sock {
    var s1 := CancelTimerIfAny(s.(uv := s.uv.(connectReq := false)));
    if ok then
      var s2 := if s1.flags.shutdownRequested then BeginShutdown(s1) else s1.(uv := s1.uv.(reading := true));
      Call(s2.(status := Connected), OnConnected)
    else
      var s2 := if s1.uv.closes == 0 then CloseUv(s1) else s1;
      RemoveAndCall(s2, ConnectError(s2))
  }

  function ReadDone(s: Sock, r: Read): Sock {
    match r
    case ReadNothing => s
    case ReadData => Call(s, OnDataReceived)
    case ReadEof => BeginShutdown(s).(flags := s.flags.(eofReceived := true))
    case ReadError => RemoveAndCall(CloseUv(s), OnDisconnected(LastError))
  }

  function Minus1(n: nat): nat {
    if n == 0 then 0 else n - 1
  }

  function ShutdownDone(s: Sock): Sock {
    var s1 := s.(uv := s.uv.(shutdownReqs := Minus1(s.uv.shutdownReqs)));
    if s1.open && s1.uv.closes == 0 then
      RemoveAndCall(CloseUv(s1), OnDisconnected(if s1.flags.eofReceived then Eof else NoError))
    else
      s1
  }

  function WriteDone(s: Sock): Sock {
    s.(uv := s.uv.(writeReqs := Minus1(s.uv.writeReqs)))
  }

  // _ae_write_callback: the block given to send_data runs unless the flag is set.
  predicate WriteBlockRuns(s: Sock) {
    !s.flags.releasing
  }

  function TimeoutFires(s: Sock): Sock {
    var s1 := CancelTimer(s);
    CloseUv(s1.(flags := s1.flags.(connectTimeout := true)))
  }

  function TcpClosed(s: Sock): Sock {
    s.(uv := s.uv.(closed := true))
  }

  function TimerClosed(s: Sock): Sock {
    s.(timers := s.timers.(closing := Minus1(s.timers.closing)))
  }

  // -------- methods; `ok` is whether the libuv call inside succeeds --------

  function SendData(s: Sock, ok: bool): Outcome {
    if !s.open then Outcome(s, False)
    else if ok then Outcome(s.(uv := s.uv.(writeReqs := s.uv.writeReqs + 1)), True)
    else Outcome(s, Raised)
  }

  function SetConnectTimeout(s: Sock, ok: bool): Outcome {
    if !s.open then Outcome(s, False)
    else if s.status.Connected? || s.timer then Outcome(s, Nil)
    else
      var s1 := s.(timer := true, timers := s.timers.(made := s.timers.made + 1));
      if ok then Outcome(s1, True) else Outcome(CancelTimer(s1), Raised)
  }

  function Close(s: Sock): Outcome {
    if !s.open then Outcome(s, False)
    else
      var s1 := CancelTimerIfAny(CloseUv(s));
      Outcome(if s1.status.Connected? then RemoveAndCall(s1, OnDisconnected(NoError)) else s1, True)
  }

  function CloseGracefully(s: Sock, ok: bool): Outcome {
    if !s.open || s.flags.shutdownRequested then Outcome(s, False)
    else if s.status.Connected? && !ok then Outcome(s.(uv := s.uv.(reading := false)), Raised)
    else
      var s1 := if s.status.Connected? then BeginShutdown(s) else s;
      Outcome(s1.(flags := s1.flags.(shutdownRequested := true)), True)
  }

  function Destroy(s: Sock): Outcome {
    if !s.open then Outcome(s, False)
    else
      var s1 := CancelTimerIfAny(CloseUv(s));
      var s2 := s1.(flags := s1.flags.(releasing := true));
      Outcome(if s2.status.Connected? then RemoveAndCall(s2, OnDisconnected(NoError)) else s2, True)
  }

  // -------- one step --------

  datatype Event =
    // from libuv
    | UvConnect(ok: bool)
    | UvRead(what: Read)
    | UvShutdown
    | UvWrite(ok: bool, block: bool)
    | UvTimeout
    | UvTcpClosed
    | UvTimerClosed
    // calls from Ruby
    | DoSendData(ok: bool)
    | DoSetConnectTimeout(ok: bool)
    | DoClose
    | DoCloseGracefully(ok: bool)
    | DoDestroy

  predicate IsUv(e: Event) {
    e.UvConnect? || e.UvRead? || e.UvShutdown? || e.UvWrite? || e.UvTimeout? || e.UvTcpClosed? || e.UvTimerClosed?
  }

  function Perform(s: Sock, e: Event): Outcome {
    match e
    case UvConnect(ok) => Outcome(ConnectDone(s, ok), Nil)
    case UvRead(what) => Outcome(ReadDone(s, what), Nil)
    case UvShutdown => Outcome(ShutdownDone(s), Nil)
    case UvWrite(_, _) => Outcome(WriteDone(s), Nil)
    case UvTimeout => Outcome(TimeoutFires(s), Nil)
    case UvTcpClosed => Outcome(TcpClosed(s), Nil)
    case UvTimerClosed => Outcome(TimerClosed(s), Nil)
    case DoSendData(ok) => SendData(s, ok)
    case DoSetConnectTimeout(ok) => SetConnectTimeout(s, ok)
    case DoClose => Close(s)
    case DoCloseGracefully(ok) => CloseGracefully(s, ok)
    case DoDestroy => Destroy(s)
  }

  function Apply(s: Sock, e: Event): Sock {
    Perform(s, e).next
  }

  // The callback a step makes, if any.
  function Made(s: Sock, e: Event): Option<Callback> {
    match e
    case UvConnect(ok) => Some(if ok then OnConnected else ConnectError(s))
    case UvRead(ReadData) => Some(OnDataReceived)
    case UvRead(ReadError) => Some(OnDisconnected(LastError))
    case UvShutdown =>
      if s.open && s.uv.closes == 0 then Some(OnDisconnected(if s.flags.eofReceived then Eof else NoError)) else None
    case DoClose => if s.open && s.status.Connected? then Some(OnDisconnected(NoError)) else None
    case DoDestroy => if s.open && s.status.Connected? then Some(OnDisconnected(NoError)) else None
    case _ => None
  }

  // Whether the step runs Ruby code of the program, as its last action.
  predicate EntersRuby(s: Sock, e: Event) {
    Made(s, e).Some? || (e.UvWrite? && e.block && WriteBlockRuns(s))
  }

  predicate NoRequests(s: Sock) {
    !s.uv.connectReq && s.uv.shutdownReqs == 0 && s.uv.writeReqs == 0
  }

  // What libuv promises: a request completes once, successfully only while the handle is
  // open; a closed handle is neither read nor timed; the close callback comes after the
  // handle's requests; a timer fires only between its start and its close.
  predicate Enabled(s: Sock, e: Event) {
    match e
    case UvConnect(ok) => s.uv.connectReq && (ok ==> s.uv.closes == 0)
    case UvRead(_) => s.uv.reading && s.uv.closes == 0
    case UvShutdown => s.uv.shutdownReqs > 0
    case UvWrite(ok, _) => s.uv.writeReqs > 0 && (ok ==> s.uv.closes == 0)
    case UvTimeout => s.timers.made > s.timers.closes
    case UvTcpClosed => s.uv.closes > 0 && !s.uv.closed && NoRequests(s)
    case UvTimerClosed => s.timers.closing > 0
    case _ => true
  }

  // -------- what every step keeps --------

  predicate IsTerminal(c: Callback) {
    c.OnConnectionError? || c.OnDisconnected?
  }

  // on_connected on_data_received*
  predicate IsLiveTrace(calls: seq<Callback>) {
    calls != [] && calls[0].OnConnected? && forall i | 1 <= i < |calls| :: calls[i].OnDataReceived?
  }

  // on_connected on_data_received* on_disconnected
  predicate IsWholeTrace(calls: seq<Callback>) {
    |calls| >= 2 && calls[|calls| - 1].OnDisconnected? && IsLiveTrace(calls[..|calls| - 1])
  }

  // A prefix of on_connection_error, or of on_connected on_data_received* on_disconnected.
  predicate IsTrace(calls: seq<Callback>) {
    calls == [] || (|calls| == 1 && calls[0].OnConnectionError?) || IsLiveTrace(calls) || IsWholeTrace(calls)
  }

  function Terminals(calls: seq<Callback>): nat {
    if calls == [] then 0
    else Terminals(calls[..|calls| - 1]) + (if IsTerminal(calls[|calls| - 1]) then 1 else 0)
  }

  function DataCalls(calls: seq<Callback>): nat {
    if calls == [] then 0
    else DataCalls(calls[..|calls| - 1]) + (if calls[|calls| - 1].OnDataReceived? then 1 else 0)
  }

  // The callbacks made, for each stage of the socket.
  predicate TraceFits(s: Sock) {
    match s.status
    case Connecting => if s.uv.connectReq then s.calls == [] else s.calls == [ConnectError(s)]
    case Connected => if s.open then IsLiveTrace(s.calls) else IsWholeTrace(s.calls)
  }

  predicate Inv(s: Sock) {
    // uv_close at most once on each handle
    && s.uv.closes == (if s.open then 0 else 1)
    && s.timers.made == s.timers.closes + (if s.timer then 1 else 0)
    && s.timers.closing <= s.timers.closes
    // a timeout timer only while an open handle connects
    && (s.timer ==> s.open && s.status.Connecting?)
    && (s.flags.connectTimeout ==> !s.open && s.status.Connecting?)
    // connecting ends with the connect request
    && (s.uv.connectReq ==> s.status.Connecting?)
    && (s.status.Connecting? && s.open ==> s.uv.connectReq)
    // nobody reads after a shutdown was asked for
    && (s.uv.reading ==> s.open && s.status.Connected? && !s.flags.shutdownRequested && !s.flags.eofReceived)
    // a shutdown asked for is on its way until the handle closes
    && (s.uv.shutdownReqs > 0 || s.flags.eofReceived ==> s.status.Connected?)
    && (s.status.Connected? && s.open && (s.flags.shutdownRequested || s.flags.eofReceived) ==> s.uv.shutdownReqs > 0)
    && (s.flags.releasing ==> !s.open)
    // @_handles holds the socket while its handle is open or its connect is pending
    && (s.stored <==> s.open || s.uv.connectReq)
    && (s.uv.closed ==> !s.open && NoRequests(s))
    && TraceFits(s)
  }

  lemma CreatedKeeps()
    ensures Inv(CREATED)
  {
  }

  lemma LastOf(calls: seq<Callback>, c: Callback)
    ensures (calls + [c])[..|calls + [c]| - 1] == calls
  {
  }

  lemma ReadKeeps(s: Sock, r: Read)
    requires Inv(s) && Enabled(s, UvRead(r))
    ensures Inv(ReadDone(s, r))
  {
    if r.ReadError? {
      LastOf(s.calls, OnDisconnected(LastError));
    }
  }

  lemma ShutdownKeeps(s: Sock)
    requires Inv(s) && Enabled(s, UvShutdown)
    ensures Inv(ShutdownDone(s))
  {
    LastOf(s.calls, OnDisconnected(if s.flags.eofReceived then Eof else NoError));
  }

  lemma CloseKeeps(s: Sock)
    requires Inv(s)
    ensures Inv(Close(s).next)
    ensures Inv(Destroy(s).next)
  {
    LastOf(s.calls, OnDisconnected(NoError));
  }

  lemma ConnectKeeps(s: Sock, ok: bool)
    requires Inv(s) && Enabled(s, UvConnect(ok))
    ensures Inv(ConnectDone(s, ok))
  {
  }

  lemma TimeoutKeeps(s: Sock)
    requires Inv(s) && Enabled(s, UvTimeout)
    ensures Inv(TimeoutFires(s))
  {
  }

  lemma UvKeeps(s: Sock)
    requires Inv(s)
    ensures Inv(WriteDone(s)) && Inv(TimerClosed(s))
    ensures Enabled(s, UvTcpClosed) ==> Inv(TcpClosed(s))
  {
  }

  lemma SendKeeps(s: Sock, ok: bool)
    requires Inv(s)
    ensures Inv(SendData(s, ok).next)
  {
  }

  lemma SetTimeoutKeeps(s: Sock, ok: bool)
    requires Inv(s)
    ensures Inv(SetConnectTimeout(s, ok).next)
  {
  }

  lemma GracefulKeeps(s: Sock, ok: bool)
    requires Inv(s)
    ensures Inv(CloseGracefully(s, ok).next)
  {
  }

  // Every step, of libuv or of the program, keeps the invariant.
  lemma StepKeeps(s: Sock, e: Event)
    requires Inv(s) && Enabled(s, e)
    ensures Inv(Apply(s, e))
  {
    hide Inv, ConnectDone, ReadDone, ShutdownDone, WriteDone, TimeoutFires, TcpClosed, TimerClosed;
    hide SendData, SetConnectTimeout, CloseGracefully, Close, Destroy;
    match e
    case UvConnect(ok) => ConnectKeeps(s, ok);
    case UvRead(what) => ReadKeeps(s, what);
    case UvShutdown => ShutdownKeeps(s);
    case UvTimeout => TimeoutKeeps(s);
    case UvWrite(_, _) => UvKeeps(s);
    case UvTcpClosed => UvKeeps(s);
    case UvTimerClosed => UvKeeps(s);
    case DoSendData(ok) => SendKeeps(s, ok);
    case DoSetConnectTimeout(ok) => SetTimeoutKeeps(s, ok);
    case DoCloseGracefully(ok) => GracefulKeeps(s, ok);
    case DoClose => CloseKeeps(s);
    case DoDestroy => CloseKeeps(s);
  }

  // -------- what a step changes --------

  // The new state's callbacks, and the flags that only ever go up.
  predicate Follows(s: Sock, e: Event, s': Sock) {
    && s'.calls == (match Made(s, e) case None => s.calls case Some(c) => s.calls + [c])
    && (s'.flags.connectTimeout <==> s.flags.connectTimeout || e.UvTimeout?)
    && (s'.flags.eofReceived <==> s.flags.eofReceived || (e.UvRead? && e.what.ReadEof?))
    && (s.flags.shutdownRequested ==> s'.flags.shutdownRequested)
    && (s'.open ==> s.open) && (s'.stored ==> s.stored)
    && (s'.flags.releasing <==> s.flags.releasing || (s.open && e.DoDestroy?))
    && s'.uv.writeReqs ==
       (if e.UvWrite? then Minus1(s.uv.writeReqs)
        else if e.DoSendData? && s.open && e.ok then s.uv.writeReqs + 1
        else s.uv.writeReqs)
  }

  lemma ConnectedFollows(s: Sock)
    ensures Follows(s, UvConnect(true), ConnectDone(s, true))
  {
  }

  lemma RefusedFollows(s: Sock)
    ensures Follows(s, UvConnect(false), ConnectDone(s, false))
  {
  }

  lemma ConnectFollows(s: Sock, ok: bool)
    ensures Follows(s, UvConnect(ok), ConnectDone(s, ok))
  {
    hide Follows, ConnectDone;
    if ok {
      ConnectedFollows(s);
    } else {
      RefusedFollows(s);
    }
  }

  lemma ReadFollows(s: Sock, r: Read)
    ensures Follows(s, UvRead(r), ReadDone(s, r))
  {
  }

  lemma ShutdownFollows(s: Sock)
    ensures Follows(s, UvShutdown, ShutdownDone(s))
  {
  }

  lemma TimeoutFollows(s: Sock)
    ensures Follows(s, UvTimeout, TimeoutFires(s))
  {
  }

  lemma UvFollows(s: Sock, ok: bool, block: bool)
    ensures Follows(s, UvWrite(ok, block), WriteDone(s))
    ensures Follows(s, UvTcpClosed, TcpClosed(s))
    ensures Follows(s, UvTimerClosed, TimerClosed(s))
  {
  }

  lemma SendFollows(s: Sock, ok: bool)
    ensures Follows(s, DoSendData(ok), SendData(s, ok).next)
  {
  }

  lemma SetTimeoutFollows(s: Sock, ok: bool)
    ensures Follows(s, DoSetConnectTimeout(ok), SetConnectTimeout(s, ok).next)
  {
  }

  lemma GracefulFollows(s: Sock, ok: bool)
    ensures Follows(s, DoCloseGracefully(ok), CloseGracefully(s, ok).next)
  {
  }

  lemma CloseFollows(s: Sock)
    ensures Follows(s, DoClose, Close(s).next)
  {
  }

  lemma DestroyFollows(s: Sock)
    ensures Follows(s, DoDestroy, Destroy(s).next)
  {
  }

  lemma StepFollows(s: Sock, e: Event)
    ensures Follows(s, e, Apply(s, e))
  {
    hide Follows, ConnectDone, ReadDone, ShutdownDone, WriteDone, TimeoutFires, TcpClosed, TimerClosed;
    hide SendData, SetConnectTimeout, CloseGracefully, Close, Destroy;
    match e
    case UvConnect(ok) => ConnectFollows(s, ok);
    case UvRead(what) => ReadFollows(s, what);
    case UvShutdown => ShutdownFollows(s);
    case UvTimeout => TimeoutFollows(s);
    case UvWrite(ok, block) => UvFollows(s, ok, block);
    case UvTcpClosed => UvFollows(s, true, true);
    case UvTimerClosed => UvFollows(s, true, true);
    case DoSendData(ok) => SendFollows(s, ok);
    case DoSetConnectTimeout(ok) => SetTimeoutFollows(s, ok);
    case DoCloseGracefully(ok) => GracefulFollows(s, ok);
    case DoClose => CloseFollows(s);
    case DoDestroy => DestroyFollows(s);
  }
}
