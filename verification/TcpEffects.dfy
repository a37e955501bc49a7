/**
  What each call and each event brings about on a socket, told by the events of its life
  alone: when the handle is open, connected and read, what each method answers, and how many
  callbacks, shutdowns and timers there have been.
 */
module TcpEffects {
  import opened Wrappers
  import opened TcpSpec
  import opened TcpRuns

  // -------- lives, from their end --------

  lemma {:induction false} LastStep(s: Sock, es: seq<Event>)
    requires IsLegal(s, es) && es != []
    ensures var before := es[..|es| - 1];
      && IsLegal(s, before)
      && Enabled(Run(s, before), es[|es| - 1])
      && Run(s, es) == Apply(Run(s, before), es[|es| - 1])
    decreases |es|
  {
    hide Enabled, Apply;
    var before, last := es[..|es| - 1], es[|es| - 1];
    if |es| == 1 {
      assert before == [] && es[1..] == [];
    } else {
      LastStep(Apply(s, es[0]), es[1..]);
      assert es[1..][..|es| - 2] == before[1..];
    }
  }

  // -------- open, connected, read --------

  // The events that close the handle.
  predicate IsClosing(e: Event) {
    || e.DoClose? || e.DoDestroy? || e.UvTimeout? || e.UvShutdown?
    || (e.UvConnect? && !e.ok) || (e.UvRead? && e.what.ReadError?)
  }

  predicate HasClosing(es: seq<Event>) {
    exists e | e in es :: IsClosing(e)
  }

  predicate HasGraceful(es: seq<Event>) {
    exists e | e in es :: e.DoCloseGracefully?
  }

  lemma HasSnoc(es: seq<Event>, e: Event)
    ensures HasClosing(es + [e]) <==> HasClosing(es) || IsClosing(e)
    ensures HasGraceful(es + [e]) <==> HasGraceful(es) || e.DoCloseGracefully?
    ensures forall x :: x in es + [e] <==> x in es || x == e
  {
    hide IsClosing;
    assert forall x :: x in es + [e] <==> x in es || x == e;
    if HasClosing(es) {
      var x :| x in es && IsClosing(x);
      assert x in es + [e];
    }
    if HasGraceful(es) {
      var x :| x in es && x.DoCloseGracefully?;
      assert x in es + [e];
    }
    assert e in es + [e];
  }

  predicate Connects(e: Event) {
    e.UvConnect? && e.ok
  }

  predicate SeesEof(e: Event) {
    e.UvRead? && e.what.ReadEof?
  }

  // One step, for the handle, the connection and the reading.
  predicate Moves(s: Sock, e: Event, s': Sock) {
    && (s'.open <==> s.open && !IsClosing(e))
    && (s'.status.Connected? <==> s.status.Connected? || Connects(e))
    && (s'.flags.shutdownRequested <==> s.flags.shutdownRequested || (e.DoCloseGracefully? && Perform(s, e).ret.True?))
    && (s'.uv.reading <==>
          if Connects(e) then !s.flags.shutdownRequested
          else s.uv.reading && !IsClosing(e) && !SeesEof(e) && !e.DoCloseGracefully?)
  }

  lemma ConnectMoves(s: Sock, ok: bool)
    requires Inv(s) && Enabled(s, UvConnect(ok))
    ensures Moves(s, UvConnect(ok), ConnectDone(s, ok))
  {
    hide TraceFits;
  }

  lemma ReadMoves(s: Sock, r: Read)
    requires Inv(s) && Enabled(s, UvRead(r))
    ensures Moves(s, UvRead(r), ReadDone(s, r))
  {
    hide TraceFits;
  }

  lemma ShutdownMoves(s: Sock)
    requires Inv(s) && Enabled(s, UvShutdown)
    ensures Moves(s, UvShutdown, ShutdownDone(s))
  {
    hide TraceFits;
  }

  lemma TimeoutMoves(s: Sock)
    requires Inv(s) && Enabled(s, UvTimeout)
    ensures Moves(s, UvTimeout, TimeoutFires(s))
  {
    hide TraceFits;
  }

  lemma UvMoves(s: Sock, ok: bool, block: bool)
    ensures Moves(s, UvWrite(ok, block), WriteDone(s))
    ensures Moves(s, UvTcpClosed, TcpClosed(s))
    ensures Moves(s, UvTimerClosed, TimerClosed(s))
  {
  }

  lemma SendMoves(s: Sock, ok: bool)
    ensures Moves(s, DoSendData(ok), SendData(s, ok).next)
  {
  }

  lemma SetTimeoutMoves(s: Sock, ok: bool)
    ensures Moves(s, DoSetConnectTimeout(ok), SetConnectTimeout(s, ok).next)
  {
  }

  lemma GracefulMoves(s: Sock, ok: bool)
    requires Inv(s)
    ensures Moves(s, DoCloseGracefully(ok), CloseGracefully(s, ok).next)
  {
    hide TraceFits;
  }

  lemma CloseMoves(s: Sock)
    requires Inv(s)
    ensures Moves(s, DoClose, Close(s).next)
  {
    hide TraceFits;
  }

  lemma DestroyMoves(s: Sock)
    requires Inv(s)
    ensures Moves(s, DoDestroy, Destroy(s).next)
  {
    hide TraceFits;
  }

  lemma StepMoves(s: Sock, e: Event)
    requires Inv(s) && Enabled(s, e)
    ensures Moves(s, e, Apply(s, e))
  {
    hide Inv, Enabled, Moves, ConnectDone, ReadDone, ShutdownDone, WriteDone, TimeoutFires, TcpClosed, TimerClosed;
    hide SendData, SetConnectTimeout, CloseGracefully, Close, Destroy;
    match e
    case UvConnect(ok) => ConnectMoves(s, ok);
    case UvRead(what) => ReadMoves(s, what);
    case UvShutdown => ShutdownMoves(s);
    case UvTimeout => TimeoutMoves(s);
    case UvWrite(ok, block) => UvMoves(s, ok, block);
    case UvTcpClosed => UvMoves(s, true, true);
    case UvTimerClosed => UvMoves(s, true, true);
    case DoSendData(ok) => SendMoves(s, ok);
    case DoSetConnectTimeout(ok) => SetTimeoutMoves(s, ok);
    case DoCloseGracefully(ok) => GracefulMoves(s, ok);
    case DoClose => CloseMoves(s);
    case DoDestroy => DestroyMoves(s);
  }

  lemma GracefulIsAnswered(s: Sock, ok: bool)
    requires Inv(s) && s.open
    ensures CloseGracefully(s, ok).ret.True? <==> !s.flags.shutdownRequested && (s.status.Connecting? || ok)
    ensures CloseGracefully(s, ok).ret.False? <==> s.flags.shutdownRequested
  {
  }

  // What the events so far say of the socket.
  predicate IsTold(s: Sock, es: seq<Event>) {
    && (s.open <==> !HasClosing(es))
    && (s.status.Connected? <==> UvConnect(true) in es)
    && (s.flags.shutdownRequested ==> HasGraceful(es))
    && (s.open && s.status.Connecting? && HasGraceful(es) ==> s.flags.shutdownRequested)
    && (s.flags.eofReceived <==> UvRead(ReadEof) in es)
    && (s.uv.reading <==>
          !HasClosing(es) && UvConnect(true) in es && !HasGraceful(es) && UvRead(ReadEof) !in es)
  }

  lemma StepIsTold(s: Sock, es: seq<Event>, e: Event)
    requires Inv(s) && Enabled(s, e) && IsTold(s, es)
    ensures IsTold(Apply(s, e), es + [e])
  {
    StepMoves(s, e);
    StepFollows(s, e);
    StepKeeps(s, e);
    HasSnoc(es, e);
    if s.open && e.DoCloseGracefully? {
      GracefulIsAnswered(s, e.ok);
      assert Perform(s, e) == CloseGracefully(s, e.ok);
    }
    ReadingFacts(s, e);
    hide Apply, HasClosing, HasGraceful, TraceFits, Made, Perform;
  }

  lemma ReadingFacts(s: Sock, e: Event)
    requires Inv(s) && Enabled(s, e)
    ensures Connects(e) ==> s.open && s.status.Connecting? && !s.flags.eofReceived && !IsClosing(e)
    ensures SeesEof(e) ==> s.uv.reading
    ensures s.uv.reading ==> s.open && s.status.Connected?
  {
    hide TraceFits;
  }

  lemma {:induction false} LifeIsTold(es: seq<Event>)
    requires IsLegal(CREATED, es)
    ensures IsTold(Run(CREATED, es), es)
    decreases |es|
  {
    hide Inv, Enabled, Apply;
    if es == [] {
      StartIsTold();
    } else {
      LastStep(CREATED, es);
      var before, last := es[..|es| - 1], es[|es| - 1];
      LifeIsTold(before);
      CreatedKeeps();
      RunKeeps(CREATED, before);
      StepIsTold(Run(CREATED, before), before, last);
      assert before + [last] == es;
    }
  }

  lemma StartIsTold()
    ensures IsTold(CREATED, [])
  {
  }

  // The handle is open exactly until an event that closes it: a close or destroy, the connect
  // timeout, a connect or a read that fails, or the completion of a shutdown.
  lemma OpenUntilClosed(es: seq<Event>)
    requires IsLegal(CREATED, es)
    ensures Run(CREATED, es).open <==> !HasClosing(es)
  {
    LifeIsTold(es);
  }

  // A connected socket is read exactly until it is closed, the peer's end of file is seen, or
  // close_gracefully is called, whatever that answers; and then libuv can deliver data, end
  // of file or an error.
  lemma ReadsUntilToldNotTo(es: seq<Event>)
    requires IsLegal(CREATED, es)
    ensures Run(CREATED, es).uv.reading <==>
      !HasClosing(es) && UvConnect(true) in es && !HasGraceful(es) && UvRead(ReadEof) !in es
    ensures Run(CREATED, es).uv.reading ==> forall r :: Enabled(Run(CREATED, es), UvRead(r))
  {
    hide Apply, IsTold;
    LifeIsTold(es);
    CreatedKeeps();
    RunKeeps(CREATED, es);
    TellsReading(Run(CREATED, es), es);
    if Run(CREATED, es).uv.reading {
      ReadingIsDelivered(Run(CREATED, es));
    }
  }

  lemma TellsReading(s: Sock, es: seq<Event>)
    requires IsTold(s, es)
    ensures s.uv.reading <==>
      !HasClosing(es) && UvConnect(true) in es && !HasGraceful(es) && UvRead(ReadEof) !in es
  {
  }

  lemma ReadingIsDelivered(s: Sock)
    requires Inv(s) && s.uv.reading
    ensures forall r :: Enabled(s, UvRead(r))
  {
  }

  // -------- what the methods answer --------

  // The answer to the i-th event of a life, when it is a call.
  function Answer(es: seq<Event>, i: nat): Ret
    requires i < |es|
  {
    Perform(Run(CREATED, es[..i]), es[i]).ret
  }

  predicate GracefulAccepted(es: seq<Event>) {
    exists i | 0 <= i < |es| :: es[i].DoCloseGracefully? && Answer(es, i).True?
  }

  predicate TimeoutAccepted(es: seq<Event>) {
    exists i | 0 <= i < |es| :: es[i].DoSetConnectTimeout? && Answer(es, i).True?
  }

  lemma AcceptedSnoc(es: seq<Event>, e: Event)
    ensures GracefulAccepted(es + [e]) <==>
      GracefulAccepted(es) || (e.DoCloseGracefully? && Perform(Run(CREATED, es), e).ret.True?)
    ensures TimeoutAccepted(es + [e]) <==>
      TimeoutAccepted(es) || (e.DoSetConnectTimeout? && Perform(Run(CREATED, es), e).ret.True?)
  {
    hide Perform, Run;
    var es' := es + [e];
    assert es'[..|es|] == es && es'[|es|] == e;
    forall i | 0 <= i < |es|
      ensures es'[i] == es[i] && Answer(es', i) == Answer(es, i)
    {
      assert es'[..i] == es[..i];
    }
    if GracefulAccepted(es) {
      var i :| 0 <= i < |es| && es[i].DoCloseGracefully? && Answer(es, i).True?;
      assert es'[i].DoCloseGracefully? && Answer(es', i).True?;
    }
    if TimeoutAccepted(es) {
      var i :| 0 <= i < |es| && es[i].DoSetConnectTimeout? && Answer(es, i).True?;
      assert es'[i].DoSetConnectTimeout? && Answer(es', i).True?;
    }
    assert Answer(es', |es|) == Perform(Run(CREATED, es), e).ret;
  }

  // One step, for the connect timeout and the counts.
  predicate Tallies(s: Sock, e: Event, s': Sock) {
    && (s'.timer <==>
          if e.DoSetConnectTimeout? && Perform(s, e).ret.True? then true
          else s.timer && !Connects(e) && !IsClosing(e))
    && s'.uv.shutdownReqs + (if e.UvShutdown? then 1 else 0) == s.uv.shutdownReqs + (if Begins(s, e) then 1 else 0)
    && s'.timers.made == s.timers.made + (if Sets(s, e) then 1 else 0)
    && s'.timers.closing + (if e.UvTimerClosed? then 1 else 0) - s'.timers.closes == s.timers.closing - s.timers.closes
    && (s'.uv.closed <==> s.uv.closed || e.UvTcpClosed?)
    && (s'.uv.connectReq <==> s.uv.connectReq && !e.UvConnect?)
  }

  // The step calls uv_shutdown with success.
  predicate Begins(s: Sock, e: Event) {
    || (Connects(e) && s.flags.shutdownRequested)
    || SeesEof(e)
    || (e.DoCloseGracefully? && s.status.Connected? && Perform(s, e).ret.True?)
  }

  // The step makes a timer.
  predicate Sets(s: Sock, e: Event) {
    e.DoSetConnectTimeout? && (Perform(s, e).ret.True? || Perform(s, e).ret.Raised?)
  }

  lemma ConnectTallies(s: Sock, ok: bool)
    requires Inv(s) && Enabled(s, UvConnect(ok))
    ensures Tallies(s, UvConnect(ok), ConnectDone(s, ok))
  {
    hide TraceFits;
  }

  lemma ReadTallies(s: Sock, r: Read)
    requires Inv(s) && Enabled(s, UvRead(r))
    ensures Tallies(s, UvRead(r), ReadDone(s, r))
  {
    hide TraceFits;
  }

  lemma ShutdownTallies(s: Sock)
    requires Inv(s) && Enabled(s, UvShutdown)
    ensures Tallies(s, UvShutdown, ShutdownDone(s))
  {
    hide TraceFits;
  }

  lemma TimeoutTallies(s: Sock)
    requires Inv(s) && Enabled(s, UvTimeout)
    ensures Tallies(s, UvTimeout, TimeoutFires(s))
  {
    hide TraceFits;
  }

  lemma UvTallies(s: Sock, ok: bool, block: bool)
    requires Inv(s)
    ensures Tallies(s, UvWrite(ok, block), WriteDone(s))
    ensures Tallies(s, UvTcpClosed, TcpClosed(s))
    ensures s.timers.closing > 0 ==> Tallies(s, UvTimerClosed, TimerClosed(s))
  {
    hide TraceFits;
  }

  lemma SendTallies(s: Sock, ok: bool)
    ensures Tallies(s, DoSendData(ok), SendData(s, ok).next)
  {
  }

  lemma SetTimeoutTallies(s: Sock, ok: bool)
    requires Inv(s)
    ensures Tallies(s, DoSetConnectTimeout(ok), SetConnectTimeout(s, ok).next)
  {
    hide TraceFits;
  }

  lemma GracefulTallies(s: Sock, ok: bool)
    ensures Tallies(s, DoCloseGracefully(ok), CloseGracefully(s, ok).next)
  {
  }

  lemma CloseTallies(s: Sock)
    requires Inv(s)
    ensures Tallies(s, DoClose, Close(s).next)
  {
    hide TraceFits;
  }

  lemma DestroyTallies(s: Sock)
    requires Inv(s)
    ensures Tallies(s, DoDestroy, Destroy(s).next)
  {
    hide TraceFits;
  }

  lemma StepTallies(s: Sock, e: Event)
    requires Inv(s) && Enabled(s, e)
    ensures Tallies(s, e, Apply(s, e))
  {
    hide Inv, Tallies, ConnectDone, ReadDone, ShutdownDone, WriteDone, TimeoutFires, TcpClosed, TimerClosed;
    hide SendData, SetConnectTimeout, CloseGracefully, Close, Destroy;
    match e
    case UvConnect(ok) => ConnectTallies(s, ok);
    case UvRead(what) => ReadTallies(s, what);
    case UvShutdown => ShutdownTallies(s);
    case UvTimeout => TimeoutTallies(s);
    case UvWrite(ok, block) => UvTallies(s, ok, block);
    case UvTcpClosed => UvTallies(s, true, true);
    case UvTimerClosed => UvTallies(s, true, true);
    case DoSendData(ok) => SendTallies(s, ok);
    case DoSetConnectTimeout(ok) => SetTimeoutTallies(s, ok);
    case DoCloseGracefully(ok) => GracefulTallies(s, ok);
    case DoClose => CloseTallies(s);
    case DoDestroy => DestroyTallies(s);
  }

  lemma TallyFacts(s: Sock, e: Event, s': Sock)
    requires Tallies(s, e, s')
    ensures s'.timer <==>
      if e.DoSetConnectTimeout? && Perform(s, e).ret.True? then true else s.timer && !Connects(e) && !IsClosing(e)
    ensures s'.uv.shutdownReqs + (if e.UvShutdown? then 1 else 0) == s.uv.shutdownReqs + (if Begins(s, e) then 1 else 0)
    ensures s'.timers.made == s.timers.made + (if Sets(s, e) then 1 else 0)
    ensures s'.timers.closing + (if e.UvTimerClosed? then 1 else 0) - s'.timers.closes ==
      s.timers.closing - s.timers.closes
    ensures s'.uv.closed <==> s.uv.closed || e.UvTcpClosed?
    ensures s'.uv.connectReq <==> s.uv.connectReq && !e.UvConnect?
  {
  }

  // The requests of the program, as the flag and the timer remember them.
  lemma {:induction false} RequestsAreRemembered(es: seq<Event>)
    requires IsLegal(CREATED, es)
    ensures Run(CREATED, es).flags.shutdownRequested <==> GracefulAccepted(es)
    ensures Run(CREATED, es).timer <==> TimeoutAccepted(es) && !HasClosing(es) && UvConnect(true) !in es
    decreases |es|
  {
    hide Inv, Enabled, Apply, Perform, Moves, Tallies, HasClosing, GracefulAccepted, TimeoutAccepted, IsClosing;
    CreatedKeeps();
    if es == [] {
      NothingRequested();
    } else {
      LastStep(CREATED, es);
      var before, last := es[..|es| - 1], es[|es| - 1];
      var s, s' := Run(CREATED, before), Run(CREATED, es);
      RequestsAreRemembered(before);
      RunKeeps(CREATED, before);
      StepMoves(s, last);
      StepTallies(s, last);
      MoveFacts(s, last, s');
      TallyFacts(s, last, s');
      AcceptedSnoc(before, last);
      HasSnoc(before, last);
      LifeIsTold(before);
      NewTimeout(s, before, last);
      assert before + [last] == es;
    }
  }

  lemma MoveFacts(s: Sock, e: Event, s': Sock)
    requires Moves(s, e, s')
    ensures s'.flags.shutdownRequested <==>
      s.flags.shutdownRequested || (e.DoCloseGracefully? && Perform(s, e).ret.True?)
  {
  }

  lemma NewTimeout(s: Sock, es: seq<Event>, e: Event)
    requires IsTold(s, es)
    ensures e.DoSetConnectTimeout? && Perform(s, e).ret.True? ==>
      !HasClosing(es) && UvConnect(true) !in es && !IsClosing(e)
    ensures !(e.DoSetConnectTimeout? && IsClosing(e))
  {
    hide HasClosing, HasGraceful;
  }

  lemma NothingRequested()
    ensures !GracefulAccepted([]) && !TimeoutAccepted([])
    ensures !CREATED.flags.shutdownRequested && !CREATED.timer
  {
  }

  // close_gracefully: true if and only if the handle is open, none before was answered true,
  // and the socket is still connecting or uv_shutdown succeeds; false exactly on a closed
  // handle or after an earlier true; an error otherwise.
  lemma CloseGracefullyAnswers(es: seq<Event>, ok: bool)
    requires IsLegal(CREATED, es)
    ensures var ret := Perform(Run(CREATED, es), DoCloseGracefully(ok)).ret;
      && (ret.True? <==> !HasClosing(es) && !GracefulAccepted(es) && (UvConnect(true) !in es || ok))
      && (ret.False? <==> HasClosing(es) || GracefulAccepted(es))
      && (ret.True? || ret.False? || ret.Raised?)
  {
    hide Inv, Enabled, Apply, HasClosing, GracefulAccepted, HasGraceful;
    LifeIsTold(es);
    RequestsAreRemembered(es);
  }

  // set_connect_timeout: false exactly on a closed handle; nil exactly when connected, or
  // when a timeout was set before; true exactly when a timer was started, which can fire
  // from then on.
  lemma SetConnectTimeoutAnswers(es: seq<Event>, ok: bool)
    requires IsLegal(CREATED, es)
    ensures var ret := Perform(Run(CREATED, es), DoSetConnectTimeout(ok)).ret;
      && (ret.False? <==> HasClosing(es))
      && (ret.Nil? <==> !HasClosing(es) && (UvConnect(true) in es || TimeoutAccepted(es)))
      && (ret.True? <==> !HasClosing(es) && UvConnect(true) !in es && !TimeoutAccepted(es) && ok)
  {
    hide Inv, Enabled, Apply, HasClosing, TimeoutAccepted, HasGraceful;
    LifeIsTold(es);
    RequestsAreRemembered(es);
  }

  // The timeout can fire exactly from a set_connect_timeout answered true until the socket
  // connects or is closed.
  lemma TimeoutIsDueExactlyWhenSet(es: seq<Event>)
    requires IsLegal(CREATED, es)
    ensures Enabled(Run(CREATED, es), UvTimeout) <==>
      TimeoutAccepted(es) && !HasClosing(es) && UvConnect(true) !in es
  {
    hide Apply, HasClosing, TimeoutAccepted, TraceFits;
    CreatedKeeps();
    RunKeeps(CREATED, es);
    RequestsAreRemembered(es);
  }

  // send_data, close and destroy: false exactly on a closed handle; send_data is an error
  // exactly when uv_write fails.
  lemma OtherCallsAnswer(es: seq<Event>, ok: bool)
    requires IsLegal(CREATED, es)
    ensures var s := Run(CREATED, es);
      && (Perform(s, DoSendData(ok)).ret == if HasClosing(es) then False else if ok then True else Raised)
      && (Perform(s, DoClose).ret == if HasClosing(es) then False else True)
      && (Perform(s, DoDestroy).ret == if HasClosing(es) then False else True)
  {
    hide Inv, Enabled, Apply, HasClosing, HasGraceful, CloseUv, CancelTimerIfAny;
    LifeIsTold(es);
  }

  // -------- how many --------

  // Reads of data, shutdowns completed, and timeout timers closed.
  datatype Kind = ADataRead | AShutdown | ATimerClose

  predicate IsOf(e: Event, kind: Kind) {
    match kind
    case ADataRead => e.UvRead? && e.what.ReadData?
    case AShutdown => e.UvShutdown?
    case ATimerClose => e.UvTimerClosed?
  }

  function Count(es: seq<Event>, kind: Kind): nat {
    if es == [] then 0 else Count(es[..|es| - 1], kind) + (if IsOf(es[|es| - 1], kind) then 1 else 0)
  }

  // Successful calls of uv_shutdown, and timers made, in a life.
  function Begun(es: seq<Event>): nat {
    if es == [] then 0
    else Begun(es[..|es| - 1]) + (if Begins(Run(CREATED, es[..|es| - 1]), es[|es| - 1]) then 1 else 0)
  }

  function TimersSet(es: seq<Event>): nat {
    if es == [] then 0
    else TimersSet(es[..|es| - 1]) + (if Sets(Run(CREATED, es[..|es| - 1]), es[|es| - 1]) then 1 else 0)
  }

  lemma CountsSnoc(es: seq<Event>, e: Event)
    ensures Begun(es + [e]) == Begun(es) + (if Begins(Run(CREATED, es), e) then 1 else 0)
    ensures TimersSet(es + [e]) == TimersSet(es) + (if Sets(Run(CREATED, es), e) then 1 else 0)
    ensures forall kind :: Count(es + [e], kind) == Count(es, kind) + (if IsOf(e, kind) then 1 else 0)
  {
    hide Run, Begins, Sets, IsOf;
    assert (es + [e])[..|es|] == es;
  }

  // One step, with what counts as one.
  lemma StepCounts(s: Sock, e: Event)
    requires Inv(s) && Enabled(s, e)
    ensures var s' := Apply(s, e);
      && s'.uv.shutdownReqs + (if IsOf(e, AShutdown) then 1 else 0)
         == s.uv.shutdownReqs + (if Begins(s, e) then 1 else 0)
      && s'.timers.made == s.timers.made + (if Sets(s, e) then 1 else 0)
      && s'.timers.closing + (if IsOf(e, ATimerClose) then 1 else 0) - s'.timers.closes
         == s.timers.closing - s.timers.closes
      && (s'.uv.closed <==> s.uv.closed || e == UvTcpClosed)
      && (s'.uv.connectReq <==> s.uv.connectReq && e != UvConnect(true) && e != UvConnect(false))
  {
    hide Inv, Enabled, Apply, Perform, Tallies, Begins, Sets;
    StepTallies(s, e);
    TallyFacts(s, e, Apply(s, e));
  }

  // The connect completes once; every shutdown begun completes once; every timer made is
  // closed once and its close callback comes once.
  lemma {:induction false} RequestsAreConserved(es: seq<Event>)
    requires IsLegal(CREATED, es)
    ensures var s := Run(CREATED, es);
      && Begun(es) == Count(es, AShutdown) + s.uv.shutdownReqs
      && TimersSet(es) == s.timers.made
      && s.timers.closes == Count(es, ATimerClose) + s.timers.closing
      && (s.uv.closed <==> UvTcpClosed in es)
      && (s.uv.connectReq <==> UvConnect(true) !in es && UvConnect(false) !in es)
    decreases |es|
  {
    hide Inv, Enabled, Apply, Perform, Begins, Sets, IsOf, Begun, TimersSet, Count;
    CreatedKeeps();
    if es == [] {
      NothingCounted();
    } else {
      LastStep(CREATED, es);
      var before, last := es[..|es| - 1], es[|es| - 1];
      assert before + [last] == es;
      RequestsAreConserved(before);
      RunKeeps(CREATED, before);
      StepCounts(Run(CREATED, before), last);
      CountsSnoc(before, last);
      InSnoc(before, last);
    }
  }

  lemma NothingCounted()
    ensures Begun([]) == 0 && TimersSet([]) == 0 && forall kind :: Count([], kind) == 0
    ensures CREATED.uv.shutdownReqs == 0 && CREATED.timers == UvTimers(0, 0, 0)
    ensures !CREATED.uv.closed && CREATED.uv.connectReq
  {
  }

  lemma InSnoc(es: seq<Event>, e: Event)
    ensures forall x :: x in es + [e] <==> x in es || x == e
  {
  }

  // What libuv can deliver at the end of a life: the completion of the connect, of each
  // shutdown and of each write that has not completed, a success only while the handle is
  // open; and the close callback once a closed handle has no request left.
  lemma CompletionsAreDue(es: seq<Event>, ok: bool, block: bool)
    requires IsLegal(CREATED, es)
    ensures var s := Run(CREATED, es);
      && (Enabled(s, UvConnect(ok)) <==>
            UvConnect(true) !in es && UvConnect(false) !in es && (ok ==> !HasClosing(es)))
      && (Enabled(s, UvShutdown) <==> Begun(es) > Count(es, AShutdown))
      && (Enabled(s, UvWrite(ok, block)) <==> Accepted(CREATED, es) > Completed(es) && (ok ==> !HasClosing(es)))
      && (Enabled(s, UvTcpClosed) <==> HasClosing(es) && UvTcpClosed !in es && NoRequests(s))
  {
    hide Apply, HasClosing, TraceFits, Begun, Count, Accepted, Completed;
    CreatedKeeps();
    RunKeeps(CREATED, es);
    OpenUntilClosed(es);
    RequestsAreConserved(es);
    WritesAreConserved(CREATED, es);
  }

  // Each read of data is one on_data_received; on_connected is called exactly when the
  // connect succeeds.
  lemma {:induction false} DataIsDelivered(es: seq<Event>)
    requires IsLegal(CREATED, es)
    ensures var calls := Run(CREATED, es).calls;
      && DataCalls(calls) == Count(es, ADataRead)
      && (OnConnected in calls <==> UvConnect(true) in es)
    decreases |es|
  {
    hide Inv, Enabled, Apply, DataCalls, Made;
    if es == [] {
      assert CREATED.calls == [] && DataCalls([]) == 0 by {
        NoCalls();
      }
    } else {
      LastStep(CREATED, es);
      var before, last := es[..|es| - 1], es[|es| - 1];
      var s := Run(CREATED, before);
      DataIsDelivered(before);
      StepFollows(s, last);
      MadeByReads(s, last);
      HasSnoc(before, last);
      if Made(s, last).Some? {
        OneMoreCall(s.calls, Made(s, last).value);
      }
      assert before + [last] == es;
    }
  }

  lemma NoCalls()
    ensures DataCalls([]) == 0
  {
  }

  lemma MadeByReads(s: Sock, e: Event)
    ensures (Made(s, e).Some? && Made(s, e).value.OnDataReceived?) <==> e.UvRead? && e.what.ReadData?
    ensures (Made(s, e).Some? && Made(s, e).value.OnConnected?) <==> Connects(e)
  {
  }

  // An event of libuv that makes a callback enters Ruby, and so does a write with a block; no
  // other does.
  lemma CallbacksEnterRuby(s: Sock, e: Event)
    ensures !e.UvWrite? ==> (EntersRuby(s, e) <==> |Apply(s, e).calls| == |s.calls| + 1)
    ensures e.UvWrite? && EntersRuby(s, e) ==> e.block
    ensures |s.calls| <= |Apply(s, e).calls| <= |s.calls| + 1
  {
    hide Apply;
    StepFollows(s, e);
  }

  // A write that completes, well or not, runs its block exactly if it was given one and the
  // handle was not closed by destroy.
  lemma WriteBlocksRun(es: seq<Event>, ok: bool, block: bool)
    requires IsLegal(CREATED, es)
    ensures EntersRuby(Run(CREATED, es), UvWrite(ok, block)) <==> block && ClosedBy(CREATED, es) != Some(DoDestroy)
  {
    hide Enabled, Apply, Inv;
    WriteBlockIsSkippedOnlyAfterDestroy(es);
  }
}
