/**
  What holds in every run of the reactor: from its first state, through any number of
  AE.run calls by any number of threads, under every behaviour of the program and of libuv.
 */
module ReactorRuns {
  import opened Wrappers
  import TcpSpec
  import TcpRuns
  import TimerSpec
  import opened ReactorSpec
  import opened ReactorInv

  predicate IsLegal(w: World, es: seq<Event>)
    decreases |es|
  {
    es == [] || (Enabled(w, es[0]) && IsLegal(Apply(w, es[0]), es[1..]))
  }

  function Run(w: World, es: seq<Event>): World
    requires IsLegal(w, es)
    decreases |es|
  {
    if es == [] then w else Run(Apply(w, es[0]), es[1..])
  }

  lemma {:induction false} RunKeeps(w: World, es: seq<Event>)
    requires Inv(w) && IsLegal(w, es)
    ensures Inv(Run(w, es))
    decreases |es|
  {
    hide Inv, Enabled, Apply;
    if es != [] {
      StepKeeps(w, es[0]);
      RunKeeps(Apply(w, es[0]), es[1..]);
    }
  }

  lemma {:induction false} RunOneMore(w: World, es: seq<Event>, e: Event)
    requires IsLegal(w, es) && Enabled(Run(w, es), e)
    ensures IsLegal(w, es + [e]) && Run(w, es + [e]) == Apply(Run(w, es), e)
    decreases |es|
  {
    hide Enabled, Apply;
    if es == [] {
      assert ([] + [e])[1..] == [];
      assert Run(Apply(w, e), []) == Apply(w, e);
    } else {
      assert (es + [e])[1..] == es[1..] + [e];
      RunOneMore(Apply(w, es[0]), es[1..], e);
    }
  }

  // A state some run reaches.
  predicate IsReached(w: World, es: seq<Event>) {
    IsLegal(INITIAL, es) && Run(INITIAL, es) == w
  }

  lemma ReachedFits(w: World, es: seq<Event>)
    requires IsReached(w, es)
    ensures Inv(w)
  {
    InitialFits();
    RunKeeps(INITIAL, es);
  }

  // -------- run ownership --------

  // A loop exists exactly while AE_mutex is held, by the thread that runs it.
  lemma OneLoop(w: World, es: seq<Event>)
    requires IsReached(w, es)
    ensures w.engine.status.Stopped? <==> w.engine.mutex.None?
    ensures w.engine.thread == w.engine.mutex
    ensures UserRuns(w) || !w.control.main.Polling? ==> !w.engine.status.Stopped?
  {
    ReachedFits(w, es);
  }

  // When rb_mutex_lock returns the engine is stopped, so neither of the two tests that
  // follow it succeeds; the three internal handles are NULL, and nothing of an earlier run
  // is left in libuv. This holds on every restart.
  lemma LockFindsStopped(w: World, es: seq<Event>, t: Tid)
    requires IsReached(w, es) && Enabled(w, Lock(t))
    ensures w.engine.status.Stopped?
    ensures w.tick.wake.None? && w.other.wake.None? && w.ubf.None?
    ensures IsQuiet(w.handles) && w.lookups.pending == {}
    ensures var w' := Apply(w, Lock(t));
      && w'.engine.status.Running? && OnLoopThread(w', t)
      && w'.tick.procs == [w.engine.waiting[t]] && w'.tick.wake == Some(true) && w'.other.procs == []
  {
    ReachedFits(w, es);
  }

  // -------- status --------

  // AE_status moves only from running to releasing to stopped, and to running again only
  // under the mutex.
  lemma StatusMoves(w: World, es: seq<Event>, e: Event)
    requires IsReached(w, es) && Enabled(w, e)
    ensures var (s, s') := (w.engine.status, Apply(w, e).engine.status);
      || s' == s
      || (s.Running? && s'.Releasing? && (e.Raise? || e.StartProc?))
      || (s.Releasing? && s'.Stopped? && e.LoopExits?)
      || (s.Stopped? && s'.Running? && e.Lock?)
  {
    ReachedFits(w, es);
    hide IsReached, Inv, Enabled, Apply;
    if IsCall(e) {
      CallsLeaveTheCode(w, e);
    } else {
      StepsMoveTheEngine(w, e);
    }
  }

  // The program's code, and the callbacks of both queues, find the status their assertions
  // demand.
  lemma AssertionsHold(w: World, es: seq<Event>)
    requires IsReached(w, es)
    ensures UserRuns(w) ==> !w.engine.status.Stopped?
    ensures Enabled(w, TakeProcs) ==> w.engine.status.Running?
    ensures w.engine.status.Running? ==> w.tick.wake.Some? && w.other.wake.Some? && w.ubf.Some?
    ensures Enabled(w, EndTraversal) ==> w.tick.wake.Some? && w.other.wake.Some? && w.ubf.Some?
  {
    hide IsReached, Inv, Enabled;
    ReachedFits(w, es);
    HandlesAreLoaded(w);
    StatusWhereNeeded(w);
  }

  lemma StatusWhereNeeded(w: World)
    requires Inv(w)
    ensures UserRuns(w) ==> !w.engine.status.Stopped?
    ensures Enabled(w, TakeProcs) ==> w.engine.status.Running?
    ensures Enabled(w, EndTraversal) ==> HandlesLoaded(w.engine.status, w.control)
  {
    hide FifoFits, HandlesFit, LookupsFit, ErrorsFit, AllVisited;
  }

  lemma HandlesAreLoaded(w: World)
    requires Inv(w)
    ensures w.tick.wake.Some? <==> HandlesLoaded(w.engine.status, w.control)
    ensures w.other.wake.Some? <==> HandlesLoaded(w.engine.status, w.control)
    ensures w.ubf.Some? <==> HandlesLoaded(w.engine.status, w.control)
  {
  }

  // Each of the three internal handles is made by the step that starts a run and closed by
  // the step that ends its release, and at no other: so once each in a run.
  lemma InternalHandlesLiveOnce(w: World, es: seq<Event>, e: Event)
    requires IsReached(w, es) && Enabled(w, e)
    ensures var w' := Apply(w, e);
      && (w.tick.wake.Some? && w'.tick.wake.None? <==> e.EndTraversal?)
      && (w.other.wake.Some? && w'.other.wake.None? <==> e.EndTraversal?)
      && (w.ubf.Some? && w'.ubf.None? <==> e.EndTraversal?)
      && (w.tick.wake.None? && w'.tick.wake.Some? <==> e.Lock?)
      && (w.other.wake.None? && w'.other.wake.Some? <==> e.Lock?)
      && (w.ubf.None? && w'.ubf.Some? <==> e.Lock?)
  {
    ReachedFits(w, es);
    StepKeeps(w, e);
    HandlesAreLoaded(w);
    HandlesAreLoaded(Apply(w, e));
    hide IsReached, Inv, Enabled, Apply;
    if IsCall(e) {
      CallsLeaveTheCode(w, e);
    } else {
      StepsMoveTheHandles(w, e);
    }
  }

  // -------- the queues --------

  // While the engine runs, the procs accepted are those started, then the rest of the
  // current batch, then the queue: none lost, none twice, in order. At any time those
  // started are a prefix of those accepted.
  lemma ProcsAreConserved(w: World, es: seq<Event>, q: Queue)
    requires IsReached(w, es)
    ensures FifoOf(w, q).started <= FifoOf(w, q).accepted
    ensures w.engine.status.Running? ==>
      FifoOf(w, q).accepted == FifoOf(w, q).started + BatchRest(w.control, q) + FifoOf(w, q).procs
    ensures !w.engine.status.Running? ==> FifoOf(w, q).procs == []
  {
    ReachedFits(w, es);
  }

  // What `accepted` and `started` record: the procs that calls handed to the queue while the
  // engine ran, and those that a batch started, since the run began.
  lemma AcceptedAreTheCalls(w: World, es: seq<Event>, e: Event, q: Queue)
    requires IsReached(w, es) && Enabled(w, e) && !e.Lock?
    ensures FifoOf(Apply(w, e), q).accepted ==
      FifoOf(w, q).accepted + (if w.engine.status.Running? then Offered(w, e, q) else [])
  {
    ReachedFits(w, es);
    hide IsReached, Inv, Enabled, Apply;
    if IsCall(e) {
      CallsOffer(w, e, q);
    } else {
      NothingAdded(FifoOf(w, q).accepted);
      StepsMoveTheQueues(w, e, q);
    }
  }

  lemma StartedAreTheBatches(w: World, es: seq<Event>, e: Event, q: Queue)
    requires IsReached(w, es) && Enabled(w, e) && !e.Lock?
    ensures FifoOf(Apply(w, e), q).started ==
      FifoOf(w, q).started + (if e.StartProc? && w.control.main.q == q then [w.control.main.rest[0]] else [])
  {
    ReachedFits(w, es);
    NothingAdded(FifoOf(w, q).started);
    if IsCall(e) {
      CallsLeaveTheCode(w, e);
      hide IsReached, Inv, Enabled, Apply;
    } else {
      StepsMoveTheQueues(w, e, q);
      hide IsReached, Inv, Apply;
    }
  }

  // While the engine runs, no batch has started the block of AE.stop: starting it is what
  // ends the running.
  predicate StopIsAhead(w: World) {
    w.engine.status.Running? ==> ReleaseProc !in w.tick.started && ReleaseProc !in w.other.started
  }

  lemma StopStaysAhead(w: World, e: Event)
    requires Inv(w) && Enabled(w, e) && StopIsAhead(w)
    ensures StopIsAhead(Apply(w, e))
  {
    hide Inv, Enabled, Apply;
    if e.Lock? {
      LockStartsAfresh(w, e.t);
    } else if IsCall(e) {
      CallsLeaveTheCode(w, e);
    } else {
      StepsMoveTheEngine(w, e);
      StepsMoveTheQueues(w, e, Tick);
      StepsMoveTheQueues(w, e, Other);
      if e.StartProc? {
        StartedStopReleases(w);
      }
    }
  }

  lemma LockStartsAfresh(w: World, t: Tid)
    requires Inv(w) && Enabled(w, Lock(t))
    ensures var w' := Apply(w, Lock(t));
      w'.tick.started == [] && w'.other.started == []
  {
    hide FifoFits, HandlesFit, LookupsFit, ErrorsFit;
  }

  lemma StartedStopReleases(w: World)
    requires Enabled(w, StartProc)
    ensures w.control.main.InBatch? && w.control.main.rest != [] && w.engine.status.Running?
    ensures w.control.main.rest[0].ReleaseProc? ==> Apply(w, StartProc).engine.status.Releasing?
  {
  }

  lemma {:induction false} RunKeepsStopAhead(w: World, es: seq<Event>)
    requires Inv(w) && IsLegal(w, es) && StopIsAhead(w)
    ensures StopIsAhead(Run(w, es))
    decreases |es|
  {
    hide Inv, Enabled, Apply, StopIsAhead;
    if es != [] {
      StepKeeps(w, es[0]);
      StopStaysAhead(w, es[0]);
      RunKeepsStopAhead(Apply(w, es[0]), es[1..]);
    }
  }

  // The block of AE.stop is never passed over: as long as the engine runs, one that was
  // accepted waits in the queue or in the rest of the batch, and none has been started.
  lemma StopIsNeverPassed(w: World, es: seq<Event>, q: Queue)
    requires IsReached(w, es) && w.engine.status.Running?
    ensures ReleaseProc !in FifoOf(w, q).started
    ensures ReleaseProc in FifoOf(w, q).accepted ==>
      ReleaseProc in BatchRest(w.control, q) || ReleaseProc in FifoOf(w, q).procs
  {
    hide Inv, Enabled, Apply;
    InitialFits();
    RunKeepsStopAhead(INITIAL, es);
    ProcsAreConserved(w, es, q);
    assert FifoOf(w, q).accepted == FifoOf(w, q).started + BatchRest(w.control, q) + FifoOf(w, q).procs;
  }

  // So once all that a queue had accepted has been started, AE.stop's block among it, the
  // engine runs no more, however the run went on meanwhile.
  lemma StopEndsTheRunning(w: World, before: seq<Event>, during: seq<Event>, q: Queue)
    requires IsReached(w, before) && ReleaseProc in FifoOf(w, q).accepted
    requires IsLegal(w, during) && FifoOf(w, q).accepted <= FifoOf(Run(w, during), q).started
    ensures !Run(w, during).engine.status.Running?
  {
    hide Inv, Enabled, Apply;
    ReachedFits(w, before);
    InitialFits();
    RunKeepsStopAhead(INITIAL, before);
    RunKeepsStopAhead(w, during);
    assert ReleaseProc in FifoOf(Run(w, during), q).started;
  }

  // A proc that waits in a queue has woken the loop for it, or the loop is about to take it.
  lemma NoLostWakeUp(w: World, es: seq<Event>, q: Queue)
    requires IsReached(w, es) && FifoOf(w, q).procs != []
    ensures w.engine.status.Running?
    ensures FifoOf(w, q).wake == Some(true) || w.control.main == Entering(q)
    ensures IsPolling(w) ==> Enabled(w, WakeFires(q))
  {
    ReachedFits(w, es);
  }

  // -------- the exit error --------

  // What is stored for an error that ends the run: the handler's own error as it is, any
  // other with a Thread#kill replaced by an Interrupt.
  function Stored(w: World, error: Error): Error {
    if error.Killed? && !w.control.user.Handling? then Interrupt else error
  }

  // @_exit_error is set by one step only, the one that begins the release; while releasing
  // it does not change, whatever is raised; uv_run's return takes it.
  lemma ExitErrorIsTheFirst(w: World, es: seq<Event>, e: Event)
    requires IsReached(w, es) && Enabled(w, e)
    ensures var (r, r') := (w.errors.exit, Apply(w, e).errors.exit);
      || r' == r
      || (r.None? && e.Raise? && r' == Some(Stored(w, e.error)) &&
          w.engine.status.Running? && Apply(w, e).engine.status.Releasing?)
      || (e.LoopExits? && r'.None?)
  {
    ReachedFits(w, es);
    if e.LoopExits? {
      hide IsReached, Inv;
    } else {
      ExitErrorStep(w, e);
      hide IsReached, Inv, Enabled;
    }
  }

  // An error ends the run exactly when the user error handler does not absorb it: there is
  // none, it is not for this error, or the error is the handler's own.
  lemma ErrorEndsTheRunIff(w: World, es: seq<Event>, error: Error)
    requires IsReached(w, es) && Enabled(w, Raise(error)) && w.engine.status.Running?
    ensures Apply(w, Raise(error)).engine.status.Releasing? <==>
      !w.errors.handler || !error.StandardError? || w.control.user.Handling?
    ensures Apply(w, Raise(error)).errors.exit ==
      if Apply(w, Raise(error)).engine.status.Releasing? then Some(Stored(w, error)) else None
  {
    ReachedFits(w, es);
    hide IsReached, HandlesFit, FifoFits;
  }

  // A Thread#kill always ends the run, and is left as it is only when it hits the handler.
  lemma KillEndsTheRun(w: World, es: seq<Event>)
    requires IsReached(w, es) && Enabled(w, Raise(Killed)) && w.engine.status.Running?
    ensures Apply(w, Raise(Killed)).engine.status.Releasing?
    ensures Apply(w, Raise(Killed)).errors.exit == Some(if w.control.user.Handling? then Killed else Interrupt)
  {
    ErrorEndsTheRunIff(w, es, Killed);
    hide IsReached, Enabled, Apply;
  }

  // In one run @_exit_error is set at most once, and only if the run is being released.
  lemma ExitErrorIsSetOnce(w: World, es: seq<Event>)
    requires IsReached(w, es) && !w.engine.status.Stopped?
    ensures w.errors.times <= 1
    ensures w.errors.times == 1 <==> w.errors.exit.Some?
    ensures w.errors.exit.Some? ==> w.engine.status.Releasing?
  {
    ReachedFits(w, es);
  }

  // Whether the error handlers let an error end the run.
  predicate IsFatal(w: World, error: Error) {
    w.engine.status.Running? && (!w.errors.handler || !error.StandardError? || w.control.user.Handling?)
  }

  // The first such error of a run.
  function FirstFatal(w: World, es: seq<Event>): Option<Error>
    requires IsLegal(w, es)
    decreases |es|
  {
    if es == [] then None
    else if es[0].Raise? && IsFatal(w, es[0].error) then Some(Stored(w, es[0].error))
    else FirstFatal(Apply(w, es[0]), es[1..])
  }

  // However a run goes, and whatever is raised after, the error AE.run raises at its end is
  // the first one that its handlers did not absorb.
  lemma {:induction false} ExitErrorOfARun(w: World, es: seq<Event>)
    requires Inv(w) && IsLegal(w, es) && forall i | 0 <= i < |es| :: !es[i].LoopExits?
    ensures Run(w, es).errors.exit == if w.errors.exit.Some? then w.errors.exit else FirstFatal(w, es)
    decreases |es|
  {
    hide Inv, Enabled, Apply, IsFatal, Stored;
    if es != [] {
      StepKeeps(w, es[0]);
      ExitErrorStep(w, es[0]);
      assert !es[0].LoopExits?;
      ExitErrorOfARun(Apply(w, es[0]), es[1..]);
    }
  }

  lemma ExitErrorStep(w: World, e: Event)
    requires Inv(w) && Enabled(w, e) && !e.LoopExits?
    ensures Apply(w, e).errors.exit ==
      if e.Raise? && IsFatal(w, e.error) then Some(Stored(w, e.error)) else w.errors.exit
    ensures e.Raise? && IsFatal(w, e.error) ==> w.errors.exit.None?
    ensures e.Raise? && IsFatal(w, e.error) ==> w.engine.status.Running? && Apply(w, e).engine.status.Releasing?
  {
    if IsCall(e) {
      CallsLeaveTheCode(w, e);
      hide Inv, Enabled, Apply;
    } else if e.Raise? {
      hide HandlesFit, FifoFits;
    } else {
      hide Inv, WithSock, WithTimer, FifoOf;
    }
  }

  // -------- what is left when a run ends --------

  // uv_run returns only after a release has finished.
  lemma OnlyAReleaseEndsTheLoop(w: World, es: seq<Event>)
    requires IsReached(w, es) && Enabled(w, LoopExits)
    ensures w.engine.status.Releasing? && w.control.release.NoRelease?
  {
    ReachedFits(w, es);
  }

  // Whenever the engine is stopped, @_handles, @_procs and both queues are empty; each handle
  // was given to uv_close exactly once and is closed; no request is left; and each socket
  // has had exactly one terminal callback.
  lemma StoppedIsQuiescent(w: World, es: seq<Event>)
    requires IsReached(w, es) && w.engine.status.Stopped?
    ensures forall k :: !IsStored(w.handles, k)
    ensures w.lookups.procs == {} && w.lookups.pending == {} && w.tick.procs == [] && w.other.procs == []
    ensures w.tick.wake.None? && w.other.wake.None? && w.ubf.None? && w.handles.orphans == 0
    ensures forall i | 0 <= i < |w.handles.socks| :: SocketIsOver(w.handles.socks[i])
    ensures forall i | 0 <= i < |w.handles.timers| :: TimerIsOver(w.handles.timers[i])
  {
    ReachedFits(w, es);
    forall i | 0 <= i < |w.handles.socks|
      ensures SocketIsOver(w.handles.socks[i])
    {
      QuietSocketIsOver(w.handles.socks[i]);
    }
    forall k
      ensures !IsStored(w.handles, k)
    {
      if k.SockKey? && k.i < |w.handles.socks| {
        QuietSocketIsOver(w.handles.socks[k.i]);
      }
    }
  }

  predicate SocketIsOver(s: TcpSpec.Sock) {
    && s.uv.closes == 1 && s.uv.closed && s.timers.closes == s.timers.made && s.timers.closing == 0
    && TcpSpec.NoRequests(s) && !s.stored
    && TcpSpec.IsTrace(s.calls) && TcpSpec.Terminals(s.calls) == 1
  }

  predicate TimerIsOver(t: TimerSpec.Timer) {
    t.uv.closes == 1 && t.uv.closed && !t.uv.active && !t.stored
  }

  lemma QuietSocketIsOver(s: TcpSpec.Sock)
    requires TcpSpec.Inv(s) && !s.open && SockIsInactive(s)
    ensures SocketIsOver(s)
  {
    TcpRuns.TerminalsCount(s);
  }

  // Between two events of libuv, @_handles holds a socket exactly while its handle is open
  // or its connect has not completed, and a timer while its handle is open.
  lemma HandleTable(w: World, es: seq<Event>, k: Key)
    requires IsReached(w, es)
    ensures IsStored(w.handles, k) <==>
      match k
      case SockKey(i) =>
        i < |w.handles.socks| && (w.handles.socks[i].open || w.handles.socks[i].uv.connectReq)
      case TimerKey(i) => i < |w.handles.timers| && w.handles.timers[i].open
  {
    ReachedFits(w, es);
  }

  // In every reachable state each socket has made the callbacks of a socket, in their order.
  lemma CallbacksAreATrace(w: World, es: seq<Event>, i: nat)
    requires IsReached(w, es) && i < |w.handles.socks|
    ensures TcpSpec.IsTrace(w.handles.socks[i].calls)
    ensures TcpSpec.Terminals(w.handles.socks[i].calls) ==
      if IsStored(w.handles, SockKey(i)) then 0 else 1
  {
    ReachedFits(w, es);
    TcpRuns.TerminalsCount(w.handles.socks[i]);
  }
}
