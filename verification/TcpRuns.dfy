/**
  Whole lives of a socket: every sequence of libuv events and method calls that libuv allows,
  in any order.
 */
module TcpRuns {
  import opened Wrappers
  import opened TcpSpec

  function Run(s: Sock, es: seq<Event>): Sock
    decreases |es|
  {
    if es == [] then s else Run(Apply(s, es[0]), es[1..])
  }

  // Each event is one libuv can deliver, or a call the program can make, at its moment.
  predicate IsLegal(s: Sock, es: seq<Event>)
    decreases |es|
  {
    es == [] || (Enabled(s, es[0]) && IsLegal(Apply(s, es[0]), es[1..]))
  }

  lemma {:induction false} RunKeeps(s: Sock, es: seq<Event>)
    requires Inv(s) && IsLegal(s, es)
    ensures Inv(Run(s, es))
    decreases |es|
  {
    hide Inv;
    hide Apply;
    hide Enabled;
    if es != [] {
      StepKeeps(s, es[0]);
      RunKeeps(Apply(s, es[0]), es[1..]);
    }
  }

  // -------- the callbacks --------

  // The callbacks of a socket are on_connection_error alone, or on_connected, then any number
  // of on_data_received, then on_disconnected, or the beginning of such a list.
  lemma CallbacksAreATrace(es: seq<Event>)
    requires IsLegal(CREATED, es)
    ensures IsTrace(Run(CREATED, es).calls)
  {
    RunKeeps(CREATED, es);
  }

  lemma {:induction false} LiveHasNoTerminal(calls: seq<Callback>)
    requires IsLiveTrace(calls)
    ensures Terminals(calls) == 0
  {
    var rest := calls[..|calls| - 1];
    if |calls| > 1 {
      LiveHasNoTerminal(rest);
    }
  }

  // A socket has had exactly one terminal callback once its handle is closed and its connect
  // has completed, and none before.
  lemma TerminalsCount(s: Sock)
    requires Inv(s)
    ensures Terminals(s.calls) == if s.open || s.uv.connectReq then 0 else 1
  {
    if s.status.Connected? {
      LiveHasNoTerminal(if s.open then s.calls else s.calls[..|s.calls| - 1]);
    }
  }

  // -------- closing --------

  // uv_close is called at most once on the handle and on each timer; exactly once each when
  // the socket is closed. While it is open, or its connect is pending, @_handles holds it.
  lemma ClosedOnce(es: seq<Event>)
    requires IsLegal(CREATED, es)
    ensures var s := Run(CREATED, es);
      && s.uv.closes == (if s.open then 0 else 1)
      && s.timers.made - s.timers.closes == (if s.timer then 1 else 0)
      && (s.timer ==> s.open && s.status.Connecting?)
      && (s.stored <==> s.open || s.uv.connectReq)
  {
    RunKeeps(CREATED, es);
  }

  // -------- graceful close --------

  lemma {:induction false} QuietRun(s: Sock, es: seq<Event>)
    requires Inv(s) && IsLegal(s, es) && s.flags.shutdownRequested
    ensures DataCalls(Run(s, es).calls) == DataCalls(s.calls)
    ensures Run(s, es).flags.shutdownRequested
    decreases |es|
  {
    hide Inv;
    hide Apply;
    hide Enabled;
    if es != [] {
      var s1 := Apply(s, es[0]);
      StepKeeps(s, es[0]);
      StepIsQuiet(s, es[0]);
      QuietRun(s1, es[1..]);
    }
  }

  lemma OneMoreCall(calls: seq<Callback>, c: Callback)
    ensures DataCalls(calls + [c]) == DataCalls(calls) + (if c.OnDataReceived? then 1 else 0)
  {
    LastOf(calls, c);
  }

  lemma MadeIsNoData(s: Sock, e: Event)
    requires Inv(s) && Enabled(s, e) && s.flags.shutdownRequested && Made(s, e).Some?
    ensures !Made(s, e).value.OnDataReceived?
  {
  }

  lemma StepIsQuiet(s: Sock, e: Event)
    requires Inv(s) && Enabled(s, e) && s.flags.shutdownRequested
    ensures Apply(s, e).flags.shutdownRequested
    ensures DataCalls(Apply(s, e).calls) == DataCalls(s.calls)
  {
    hide Inv, Enabled, Apply, Made, DataCalls;
    StepFollows(s, e);
    if Made(s, e).Some? {
      MadeIsNoData(s, e);
      OneMoreCall(s.calls, Made(s, e).value);
    }
  }

  // Once close_gracefully has returned true, no continuation brings on_data_received, and no
  // later call of it returns true again.
  lemma NoDataAfterGracefulClose(before: seq<Event>, ok: bool, after: seq<Event>)
    requires IsLegal(CREATED, before)
    requires Perform(Run(CREATED, before), DoCloseGracefully(ok)).ret.True?
    requires IsLegal(Apply(Run(CREATED, before), DoCloseGracefully(ok)), after)
    ensures var s := Apply(Run(CREATED, before), DoCloseGracefully(ok));
      && DataCalls(Run(s, after).calls) == DataCalls(Run(CREATED, before).calls)
      && forall again :: Perform(Run(s, after), DoCloseGracefully(again)).ret == False
  {
    var s := Run(CREATED, before);
    RunKeeps(CREATED, before);
    StepKeeps(s, DoCloseGracefully(ok));
    QuietRun(Apply(s, DoCloseGracefully(ok)), after);
  }

  // A graceful close asked for gets through: while the handle is open either the connect is
  // pending, and when it succeeds the shutdown begins, or the shutdown is pending, and when
  // it completes the handle is closed and on_disconnected called.
  lemma GracefulCloseGoesOn(es: seq<Event>)
    requires IsLegal(CREATED, es) && Run(CREATED, es).open && Run(CREATED, es).flags.shutdownRequested
    ensures Run(CREATED, es).status.Connecting? ==>
      var s' := Run(CREATED, es + [UvConnect(true)]);
      && IsLegal(CREATED, es + [UvConnect(true)])
      && s'.open && s'.status.Connected? && s'.uv.shutdownReqs > 0 && !s'.uv.reading
    ensures Run(CREATED, es).status.Connected? ==>
      var s' := Run(CREATED, es + [UvShutdown]);
      && IsLegal(CREATED, es + [UvShutdown])
      && !s'.open && s'.uv.closes == 1 && Made(Run(CREATED, es), UvShutdown).Some?
  {
    RunKeeps(CREATED, es);
    var s := Run(CREATED, es);
    if s.status.Connecting? {
      RunOneMore(CREATED, es, UvConnect(true));
    } else {
      RunOneMore(CREATED, es, UvShutdown);
    }
  }

  lemma {:induction false} RunOneMore(s: Sock, es: seq<Event>, e: Event)
    requires IsLegal(s, es) && Enabled(Run(s, es), e)
    ensures IsLegal(s, es + [e]) && Run(s, es + [e]) == Apply(Run(s, es), e)
    decreases |es|
  {
    hide Enabled, Apply;
    if es == [] {
      assert ([] + [e])[1..] == [];
      assert Run(Apply(s, e), []) == Apply(s, e);
    } else {
      assert (es + [e])[1..] == es[1..] + [e];
      RunOneMore(Apply(s, es[0]), es[1..], e);
    }
  }

  // -------- writes --------

  // The calls of send_data that libuv accepted in a run, and the writes it completed.
  function Accepted(s: Sock, es: seq<Event>): nat
    decreases |es|
  {
    if es == [] then 0
    else
      (if es[0].DoSendData? && Perform(s, es[0]).ret.True? then 1 else 0) + Accepted(Apply(s, es[0]), es[1..])
  }

  function Completed(es: seq<Event>): nat {
    if es == [] then 0 else (if es[0].UvWrite? then 1 else 0) + Completed(es[1..])
  }

  // Each write accepted completes once, and none of them is forgotten by a close.
  lemma {:induction false} WritesAreConserved(s: Sock, es: seq<Event>)
    requires IsLegal(s, es)
    ensures s.uv.writeReqs + Accepted(s, es) == Completed(es) + Run(s, es).uv.writeReqs
    decreases |es|
  {
    if es != [] {
      WriteStep(s, es[0]);
      hide Apply, Perform, Enabled;
      WritesAreConserved(Apply(s, es[0]), es[1..]);
    }
  }

  lemma SendIsAccepted(s: Sock, e: Event)
    requires e.DoSendData?
    ensures Perform(s, e).ret.True? <==> s.open && e.ok
  {
  }

  lemma WriteStep(s: Sock, e: Event)
    requires Enabled(s, e)
    ensures e.DoSendData? && Perform(s, e).ret.True? ==> Apply(s, e).uv.writeReqs == s.uv.writeReqs + 1
    ensures e.UvWrite? ==> Apply(s, e).uv.writeReqs == s.uv.writeReqs - 1
    ensures !(e.DoSendData? && Perform(s, e).ret.True?) && !e.UvWrite? ==>
      Apply(s, e).uv.writeReqs == s.uv.writeReqs
  {
    if e.DoSendData? {
      SendIsAccepted(s, e);
    }
    StepFollows(s, e);
    hide Apply, Perform, Made;
  }

  // -------- connect timeout --------

  lemma {:induction false} TimeoutIsFlagged(s: Sock, es: seq<Event>)
    requires Inv(s) && IsLegal(s, es)
    ensures Run(s, es).flags.connectTimeout <==> s.flags.connectTimeout || UvTimeout in es
    decreases |es|
  {
    hide Inv;
    hide Apply;
    hide Enabled;
    if es != [] {
      StepKeeps(s, es[0]);
      StepFollows(s, es[0]);
      TimeoutIsFlagged(Apply(s, es[0]), es[1..]);
    }
  }

  lemma ConnectedHasNoError(s: Sock, error: UvError)
    requires Inv(s) && s.status.Connected?
    ensures OnConnectionError(error) !in s.calls
  {
    if !s.open {
      assert s.calls == s.calls[..|s.calls| - 1] + [s.calls[|s.calls| - 1]];
    }
  }

  // A failed connect reports ETIMEDOUT exactly when the timeout timer had fired.
  lemma TimeoutIsReported(es: seq<Event>, error: UvError)
    requires IsLegal(CREATED, es)
    requires OnConnectionError(error) in Run(CREATED, es).calls
    ensures error.TimedOut? <==> UvTimeout in es
  {
    RunKeeps(CREATED, es);
    TimeoutIsFlagged(CREATED, es);
    var s := Run(CREATED, es);
    if s.status.Connected? {
      ConnectedHasNoError(s, error);
    }
  }

  // Whenever the timer fires there is a handle to close and a timer to cancel.
  lemma TimeoutHasAHandle(es: seq<Event>)
    requires IsLegal(CREATED, es)
    requires Enabled(Run(CREATED, es), UvTimeout)
    ensures var s := Run(CREATED, es);
      s.timer && s.open && s.status.Connecting? && s.uv.connectReq && s.calls == []
  {
    RunKeeps(CREATED, es);
  }

  // -------- the RELEASING flag --------

  // The event that closed the handle, if one has.
  function ClosedBy(s: Sock, es: seq<Event>): Option<Event>
    decreases |es|
  {
    if es == [] then None
    else if s.open && !Apply(s, es[0]).open then Some(es[0])
    else ClosedBy(Apply(s, es[0]), es[1..])
  }

  lemma {:induction false} ClosedStaysClosed(s: Sock, es: seq<Event>)
    requires Inv(s) && IsLegal(s, es) && !s.open
    ensures !Run(s, es).open && Run(s, es).flags.releasing == s.flags.releasing && ClosedBy(s, es) == None
    decreases |es|
  {
    hide Inv;
    hide Apply;
    hide Enabled;
    if es != [] {
      StepKeeps(s, es[0]);
      StepFollows(s, es[0]);
      ClosedStaysClosed(Apply(s, es[0]), es[1..]);
    }
  }

  lemma OpenIsUnflagged(s: Sock)
    requires Inv(s) && s.open
    ensures !s.flags.releasing
  {
  }

  lemma {:induction false} FlaggedByDestroy(s: Sock, es: seq<Event>)
    requires Inv(s) && IsLegal(s, es) && s.open
    ensures Run(s, es).flags.releasing <==> ClosedBy(s, es) == Some(DoDestroy)
    decreases |es|
  {
    hide Inv;
    hide Apply;
    hide Enabled;
    OpenIsUnflagged(s);
    if es != [] {
      var s1 := Apply(s, es[0]);
      StepKeeps(s, es[0]);
      StepFollows(s, es[0]);
      if s1.open {
        FlaggedByDestroy(s1, es[1..]);
      } else {
        ClosedStaysClosed(s1, es[1..]);
      }
    }
  }

  // The block given to send_data is skipped exactly for a socket that `destroy` itself
  // closed: on a socket closed in any other way, even just before a release, it still runs.
  lemma WriteBlockIsSkippedOnlyAfterDestroy(es: seq<Event>)
    requires IsLegal(CREATED, es)
    ensures WriteBlockRuns(Run(CREATED, es)) <==> ClosedBy(CREATED, es) != Some(DoDestroy)
  {
    FlaggedByDestroy(CREATED, es);
  }

  // The comment "don't run the write block when releasing" does not hold of this socket.
  lemma WriteBlockRunsWhileReleasing()
    ensures var es := [DoSendData(true), DoClose, DoDestroy];
      && IsLegal(CREATED, es)
      && EntersRuby(Run(CREATED, es), UvWrite(false, true))
      && Enabled(Run(CREATED, es), UvWrite(false, true))
  {
    var s1 := Apply(CREATED, DoSendData(true));
    var s2 := Apply(s1, DoClose);
    assert Run(s2, [DoDestroy]) == s2 by {
      assert Run(Apply(s2, DoDestroy), []) == s2;
    }
    assert [DoClose, DoDestroy][1..] == [DoDestroy];
    assert [DoSendData(true), DoClose, DoDestroy][1..] == [DoClose, DoDestroy];
  }

  // -------- the error given to on_disconnected --------

  // What on_disconnected is told, by the event that closed the handle.
  function Reason(cause: Event, sawEof: bool): UvError {
    if cause.UvRead? then LastError else if cause.UvShutdown? && sawEof then Eof else NoError
  }

  lemma {:induction false} EofIsFlagged(s: Sock, es: seq<Event>)
    requires Inv(s) && IsLegal(s, es)
    ensures Run(s, es).flags.eofReceived <==> s.flags.eofReceived || UvRead(ReadEof) in es
    decreases |es|
  {
    hide Inv, Apply, Enabled;
    if es != [] {
      StepKeeps(s, es[0]);
      StepFollows(s, es[0]);
      EofIsFlagged(Apply(s, es[0]), es[1..]);
    }
  }

  lemma ClosingStep(s: Sock, e: Event)
    requires Inv(s) && Enabled(s, e) && s.open && !Apply(s, e).open && s.status.Connected?
    ensures var s' := Apply(s, e);
      && s'.status.Connected? && s'.calls != []
      && s'.calls[|s'.calls| - 1] == OnDisconnected(Reason(e, s.flags.eofReceived))
      && (s'.flags.eofReceived <==> s.flags.eofReceived)
  {
  }

  lemma ClosedStep(s: Sock, e: Event)
    requires Inv(s) && Enabled(s, e) && !s.open
    ensures var s' := Apply(s, e);
      && !s'.open && s'.status == s.status
      && (s'.flags.eofReceived <==> s.flags.eofReceived)
      && (s.status.Connected? ==> s'.calls == s.calls)
  {
  }

  lemma {:induction false} ClosedRun(s: Sock, es: seq<Event>)
    requires Inv(s) && IsLegal(s, es) && !s.open
    ensures var s' := Run(s, es);
      && s'.status == s.status
      && (s'.flags.eofReceived <==> s.flags.eofReceived)
      && (s.status.Connected? ==> s'.calls == s.calls)
    decreases |es|
  {
    hide Inv, Apply, Enabled;
    if es != [] {
      StepKeeps(s, es[0]);
      ClosedStep(s, es[0]);
      ClosedRun(Apply(s, es[0]), es[1..]);
    }
  }

  lemma {:induction false} LastCallTellsTheReason(s: Sock, es: seq<Event>)
    requires Inv(s) && IsLegal(s, es) && s.open
    requires !Run(s, es).open && Run(s, es).status.Connected?
    ensures ClosedBy(s, es).Some?
    ensures var calls := Run(s, es).calls;
      && calls != []
      && calls[|calls| - 1] == OnDisconnected(Reason(ClosedBy(s, es).value, Run(s, es).flags.eofReceived))
    decreases |es|
  {
    hide Inv, Apply, Enabled;
    var s1 := Apply(s, es[0]);
    StepKeeps(s, es[0]);
    if s1.open {
      LastCallTellsTheReason(s1, es[1..]);
    } else {
      ClosedRun(s1, es[1..]);
      ConnectedBefore(s, es[0]);
      ClosingStep(s, es[0]);
    }
  }

  lemma ConnectedBefore(s: Sock, e: Event)
    requires Inv(s) && Enabled(s, e) && s.open && !Apply(s, e).open && Apply(s, e).status.Connected?
    ensures s.status.Connected?
  {
  }

  // A socket that was connected and is closed was told the right reason: the error of the
  // read that failed; EOF, when the peer's end of file came before the shutdown completed;
  // and nil when the program or the release closed it.
  lemma DisconnectTellsTheReason(es: seq<Event>)
    requires IsLegal(CREATED, es) && !Run(CREATED, es).open && Run(CREATED, es).status.Connected?
    ensures ClosedBy(CREATED, es).Some?
    ensures var calls := Run(CREATED, es).calls;
      && calls != []
      && calls[|calls| - 1] == OnDisconnected(Reason(ClosedBy(CREATED, es).value, UvRead(ReadEof) in es))
  {
    LastCallTellsTheReason(CREATED, es);
    EofIsFlagged(CREATED, es);
  }

  // -------- what a closed socket still has to do --------

  // Completions libuv owes the socket.
  function Work(s: Sock): nat {
    (if s.uv.connectReq then 1 else 0) + s.uv.shutdownReqs + s.uv.writeReqs
    + (if s.uv.closed then 0 else 1) + s.timers.closing
  }

  // On a closed handle each libuv event does one unit of that work, ...
  lemma ClosedWorkDrops(s: Sock, e: Event)
    requires Inv(s) && Enabled(s, e) && !s.open && IsUv(e)
    ensures Work(Apply(s, e)) == Work(s) - 1
  {
  }

  // ... no call adds any, since none can start a request or reopen the handle, ...
  lemma ClosedCallsDoNothing(s: Sock, e: Event)
    requires Inv(s) && !s.open && !IsUv(e)
    ensures Perform(s, e) == Outcome(s, False)
  {
  }

  // ... and while any is left libuv has an event to deliver.
  function NextUv(s: Sock): Event {
    if s.uv.connectReq then UvConnect(false)
    else if s.uv.shutdownReqs > 0 then UvShutdown
    else if s.uv.writeReqs > 0 then UvWrite(false, false)
    else if s.timers.closing > 0 then UvTimerClosed
    else UvTcpClosed
  }

  lemma ClosedWorkGoesOn(s: Sock)
    requires Inv(s) && !s.open && Work(s) > 0
    ensures IsUv(NextUv(s)) && Enabled(s, NextUv(s))
  {
  }
}
