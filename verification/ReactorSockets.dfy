/**
  A socket inside a run of the reactor: what happens to it is one of the lives of TcpRuns, so
  that all that holds of those holds in the reactor.
 */
module ReactorSockets {
  import opened Wrappers
  import TcpSpec
  import TcpRuns
  import TimerSpec
  import opened ReactorSpec
  import opened ReactorInv
  import opened ReactorRuns

  // What a step of the reactor is for socket i.
  function EventFor(e: Event, i: nat): Option<TcpSpec.Event> {
    match e
    case SockCall(j, call) => if j == i then Some(call) else None
    case SockUv(j, event) => if j == i then Some(event) else None
    case DestroyNext(SockKey(j)) => if j == i then Some(TcpSpec.DoDestroy) else None
    case _ => None
  }

  lemma OtherStepsKeepTheSocks(w: World, e: Event)
    requires Enabled(w, e) && !e.SockCall? && !e.SockUv? && !e.SockNew? && !e.DestroyNext?
    ensures Apply(w, e).handles.socks == w.handles.socks
  {
    hide TcpSpec.Apply, TcpSpec.Made, TcpSpec.Enabled, TcpSpec.EntersRuby, TimerSpec.Apply, TimerSpec.Enabled;
    hide Push, Loaded, FifoOf, AllVisited, NothingActive, CanCall;
  }

  lemma SocksOfAStep(w: World, e: Event, i: nat)
    requires Enabled(w, e)
    ensures var (ss, ss') := (w.handles.socks, Apply(w, e).handles.socks);
      && |ss| <= |ss'|
      && (|ss| <= i < |ss'| ==> ss'[i] == TcpSpec.CREATED)
      && (i < |ss| && EventFor(e, i).None? ==> ss'[i] == ss[i])
      && (i < |ss| && EventFor(e, i).Some? ==>
            TcpSpec.Enabled(ss[i], EventFor(e, i).value) && ss'[i] == TcpSpec.Apply(ss[i], EventFor(e, i).value))
  {
    if e.SockCall? {
      hide TcpSpec.Apply, TimerSpec.Apply;
      CallIsEnabled(w.handles.socks[e.i], e.sockCall);
    } else if e.SockUv? || e.DestroyNext? || e.SockNew? {
      hide TcpSpec.Apply, TimerSpec.Apply, TcpSpec.Made, TcpSpec.EntersRuby;
    } else {
      hide Enabled, Apply;
      OtherStepsKeepTheSocks(w, e);
    }
  }

  // The events of a run that concern socket i, from its making.
  function LifeOf(w: World, es: seq<Event>, i: nat): seq<TcpSpec.Event>
    requires IsLegal(w, es)
    decreases |es|
  {
    if es == [] then []
    else
      var later := LifeOf(Apply(w, es[0]), es[1..], i);
      if i < |w.handles.socks| && EventFor(es[0], i).Some? then [EventFor(es[0], i).value] + later else later
  }

  function Born(w: World, i: nat): TcpSpec.Sock {
    if i < |w.handles.socks| then w.handles.socks[i] else TcpSpec.CREATED
  }

  lemma {:induction false} LifeIsLegal(w: World, es: seq<Event>, i: nat)
    requires IsLegal(w, es) && i < |Run(w, es).handles.socks|
    ensures TcpRuns.IsLegal(Born(w, i), LifeOf(w, es, i))
    ensures TcpRuns.Run(Born(w, i), LifeOf(w, es, i)) == Run(w, es).handles.socks[i]
    decreases |es|
  {
    hide Enabled, Apply, EventFor, TcpSpec.Apply, TcpSpec.Enabled;
    if es != [] {
      var w' := Apply(w, es[0]);
      SocksOfAStep(w, es[0], i);
      LifeIsLegal(w', es[1..], i);
      if i < |w.handles.socks| && EventFor(es[0], i).Some? {
        assert LifeOf(w, es, i)[1..] == LifeOf(w', es[1..], i);
      }
    }
  }

  // Every socket of every reachable state has lived, since it was made, a life that libuv
  // and the program can give a socket.
  lemma EverySocketHasALife(w: World, es: seq<Event>, i: nat)
    requires IsReached(w, es) && i < |w.handles.socks|
    ensures TcpRuns.IsLegal(TcpSpec.CREATED, LifeOf(INITIAL, es, i))
    ensures TcpRuns.Run(TcpSpec.CREATED, LifeOf(INITIAL, es, i)) == w.handles.socks[i]
  {
    LifeIsLegal(INITIAL, es, i);
  }

  // In any run, once close_gracefully has returned true on a socket, its on_data_received is
  // not called again, whatever the rest of the reactor does.
  lemma NoDataAfterGracefulClose(w: World, before: seq<Event>, i: nat, ok: bool, after: seq<Event>)
    requires IsReached(w, before) && i < |w.handles.socks| && UserRuns(w)
    requires TcpSpec.Perform(w.handles.socks[i], TcpSpec.DoCloseGracefully(ok)).ret.True?
    requires IsLegal(Apply(w, SockCall(i, TcpSpec.DoCloseGracefully(ok))), after)
    ensures var w' := Run(Apply(w, SockCall(i, TcpSpec.DoCloseGracefully(ok))), after);
      && i < |w'.handles.socks|
      && TcpSpec.DataCalls(w'.handles.socks[i].calls) == TcpSpec.DataCalls(w.handles.socks[i].calls)
  {
    var w1 := Apply(w, SockCall(i, TcpSpec.DoCloseGracefully(ok)));
    SocksOfAStep(w, SockCall(i, TcpSpec.DoCloseGracefully(ok)), i);
    SocksStay(w1, after);
    LifeIsLegal(w1, after, i);
    EverySocketHasALife(w, before, i);
    TcpRuns.NoDataAfterGracefulClose(LifeOf(INITIAL, before, i), ok, LifeOf(w1, after, i));
  }

  lemma {:induction false} SocksStay(w: World, es: seq<Event>)
    requires IsLegal(w, es)
    ensures |w.handles.socks| <= |Run(w, es).handles.socks|
    decreases |es|
  {
    hide Enabled, Apply;
    if es != [] {
      SocksOfAStep(w, es[0], 0);
      SocksStay(Apply(w, es[0]), es[1..]);
    }
  }

  // In any run, a socket whose connect failed was told ETIMEDOUT exactly when its timer had
  // fired.
  lemma TimeoutIsReported(w: World, es: seq<Event>, i: nat, error: TcpSpec.UvError)
    requires IsReached(w, es) && i < |w.handles.socks|
    requires TcpSpec.OnConnectionError(error) in w.handles.socks[i].calls
    ensures error.TimedOut? <==> TcpSpec.UvTimeout in LifeOf(INITIAL, es, i)
  {
    EverySocketHasALife(w, es, i);
    TcpRuns.TimeoutIsReported(LifeOf(INITIAL, es, i), error);
  }

  // When the engine is stopped, libuv has completed every write it accepted on the socket.
  lemma StoppedHasCompletedTheWrites(w: World, es: seq<Event>, i: nat)
    requires IsReached(w, es) && w.engine.status.Stopped? && i < |w.handles.socks|
    ensures var life := LifeOf(INITIAL, es, i);
      TcpRuns.IsLegal(TcpSpec.CREATED, life) && TcpRuns.Accepted(TcpSpec.CREATED, life) == TcpRuns.Completed(life)
  {
    EverySocketHasALife(w, es, i);
    StoppedIsQuiescent(w, es);
    TcpRuns.WritesAreConserved(TcpSpec.CREATED, LifeOf(INITIAL, es, i));
  }
}
