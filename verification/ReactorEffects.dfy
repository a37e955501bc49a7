/**
  What each step of the reactor brings about: who waits for the mutex and what a run starts
  with, when the idle handle runs, which steps enter Ruby and how they leave it, what the
  constructors make, and the counts that nothing else tells.
 */
module ReactorEffects {
  import opened Wrappers
  import TcpSpec
  import TimerSpec
  import TimerEffects
  import opened ReactorSpec
  import opened ReactorInv
  import opened ReactorRuns
  import ReactorSockets
  import ReactorTimers

  // -------- waiting for the mutex --------

  lemma CallsMove(w: World, e: Event)
    requires Enabled(w, e) && IsCall(e)
    ensures Apply(w, e).engine.waiting ==
      if e.RunCall? && !w.engine.status.Running? && w.engine.mutex != Some(e.t) then w.engine.waiting[e.t := e.p]
      else w.engine.waiting
    ensures Apply(w, e).errors.handler == if e.SetHandler? then e.on else w.errors.handler
    ensures Apply(w, e).handles.orphans == w.handles.orphans +
      (if e.SockNew? && e.how.ConnectFails? && w.engine.status.Running? then 1 else 0)
    ensures Apply(w, e).ubf == if e.UbfSend? && w.engine.status.Running? then Some(true) else w.ubf
  {
    hide CanCall, UserRuns, TcpSpec.Apply, TimerSpec.Apply, OneShot, Periodic, Push, TimerSpec.Enabled;
  }

  lemma StepsMove(w: World, e: Event)
    requires Enabled(w, e) && !IsCall(e)
    ensures Apply(w, e).engine.waiting == if e.Lock? then w.engine.waiting - {e.t} else w.engine.waiting
    ensures Apply(w, e).errors.handler == w.errors.handler
    ensures Apply(w, e).handles.orphans ==
      w.handles.orphans + (if e.EndTraversal? then 3 else 0) - (if e.OrphanCloses? then 1 else 0)
  {
    hide TcpSpec.EntersRuby, NothingActive, AllVisited, IsStored, TcpSpec.Apply, TimerSpec.Apply, TcpSpec.Made;
    hide TcpSpec.Enabled, TimerSpec.Enabled;
    match e
    case Raise(_) =>
    case StartProc =>
    case DestroyNext(_) =>
    case _ =>
  }

  // A thread waits for the mutex from its AE.run on an engine that does not run, unless it
  // holds the mutex itself, until it gets it; it brings the proc it was called with.
  lemma WaitingMoves(w: World, e: Event)
    requires Enabled(w, e)
    ensures Apply(w, e).engine.waiting ==
      if e.RunCall? && !w.engine.status.Running? && w.engine.mutex != Some(e.t) then w.engine.waiting[e.t := e.p]
      else if e.Lock? then w.engine.waiting - {e.t}
      else w.engine.waiting
  {
    hide Enabled, Apply;
    if IsCall(e) {
      CallsMove(w, e);
    } else {
      StepsMove(w, e);
    }
  }

  // AE.run on a stopped engine, call by call: the thread waits, gets the mutex, and the loop
  // it makes takes the proc first.
  lemma RunTakesTheMutex(w: World, es: seq<Event>, t: Tid, p: Proc)
    requires IsReached(w, es) && w.engine.status.Stopped? && t !in w.engine.waiting
    ensures Enabled(w, RunCall(t, p)) && Enabled(Apply(w, RunCall(t, p)), Lock(t))
    ensures var w' := Apply(Apply(w, RunCall(t, p)), Lock(t));
      && w'.engine == Engine(Running, Some(t), Some(t), w.engine.waiting) && w'.control == START
      && w'.tick == Fifo([p], Some(true), [p], []) && w'.other == Fifo([], Some(false), [], [])
      && w'.ubf == Some(false) && Enabled(w', WakeFires(Tick))
  {
    hide IsReached, Inv, Apply, Enabled, CanCall;
    ReachedFits(w, es);
    QueuesAreEmpty(w);
    LockIsDue(w, t, p);
    RunCallIs(w, t, p);
    LockIs(RunCalled(w, t, p), t);
    assert w.engine.waiting[t := p] - {t} == w.engine.waiting;
    WakeIsDue(Locked(RunCalled(w, t, p), t, p), Tick);
  }

  lemma LockIsDue(w: World, t: Tid, p: Proc)
    requires w.engine.status.Stopped? && t !in w.engine.waiting && w.engine.mutex.None? && w.engine.thread.None?
    ensures Enabled(w, RunCall(t, p)) && Enabled(RunCalled(w, t, p), Lock(t))
  {
  }

  lemma WakeIsDue(w: World, q: Queue)
    requires IsPolling(w) && FifoOf(w, q).wake == Some(true)
    ensures Enabled(w, WakeFires(q))
  {
  }

  lemma QueuesAreEmpty(w: World)
    requires Inv(w) && w.engine.status.Stopped?
    ensures w.tick.procs == [] && w.other.procs == [] && w.engine.mutex.None? && w.engine.thread.None?
  {
  }

  // Then the idle handle fires, the batch is taken, and the proc is started: a block of the
  // program runs on a running engine, and the block of AE.stop releases it at once.
  lemma RunStartsTheProc(w: World, es: seq<Event>, t: Tid, p: Proc)
    requires IsReached(w, es) && w.engine.status.Stopped? && t !in w.engine.waiting
    ensures var run := es + [RunCall(t, p)] + [Lock(t)] + [WakeFires(Tick)] + [TakeProcs] + [StartProc];
      && IsLegal(INITIAL, run)
      && var w' := Run(INITIAL, run);
         && w'.tick.started == [p] && OnLoopThread(w', t)
         && (if p.UserProc? then w'.engine.status.Running? && UserRuns(w')
             else w'.engine.status.Releasing? && w'.control.release == Traversing({}, false))
  {
    RunTakesTheMutex(w, es, t, p);
    var w1 := Apply(w, RunCall(t, p));
    var w2 := Apply(w1, Lock(t));
    RunOneMore(INITIAL, es, RunCall(t, p));
    RunOneMore(INITIAL, es + [RunCall(t, p)], Lock(t));
    var locked := es + [RunCall(t, p)] + [Lock(t)];
    FirstProcStarts(w2, p);
    hide Enabled, Apply;
    var w3 := Apply(w2, WakeFires(Tick));
    RunOneMore(INITIAL, locked, WakeFires(Tick));
    RunOneMore(INITIAL, locked + [WakeFires(Tick)], TakeProcs);
    RunOneMore(INITIAL, locked + [WakeFires(Tick)] + [TakeProcs], StartProc);
  }

  lemma FirstProcStarts(w: World, p: Proc)
    requires w.engine.status.Running? && Enabled(w, WakeFires(Tick))
    requires w.tick.started == [] && w.tick.procs == [p]
    ensures Enabled(Apply(w, WakeFires(Tick)), TakeProcs)
    ensures Enabled(Apply(Apply(w, WakeFires(Tick)), TakeProcs), StartProc)
    ensures var w' := Apply(Apply(Apply(w, WakeFires(Tick)), TakeProcs), StartProc);
      && w'.tick.started == [p] && w'.engine.thread == w.engine.thread
      && (if p.UserProc? then w'.engine.status.Running? && UserRuns(w')
          else w'.engine.status.Releasing? && w'.control.release == Traversing({}, false))
  {
    hide Enabled, Apply;
    WakeIs(w, Tick);
    WokenIsEntering(w, Tick);
    var w1 := Awoken(w, Tick);
    TakeIs(w1);
    var w2 := ProcsTaken(w1, Tick);
    assert w2.control.main == InBatch(Tick, [p]) && InUvRun(w2);
    StartIsDue(w2);
    StartIs(w2);
  }

  // -------- the idle handle --------

  // The idle handle runs exactly while procs wait for it and its callback has not begun.
  predicate IdleFits(w: World) {
    w.engine.status.Running? ==>
      (w.tick.wake == Some(true) <==> w.tick.procs != [] && w.control.main != Entering(Tick))
  }

  // On the loop thread a call is made only by the program's code, which no queue callback
  // runs before it has taken the procs.
  lemma CallsMoveTheTick(w: World, e: Event)
    requires Inv(w) && Enabled(w, e) && IsCall(e)
    ensures var t' := Apply(w, e).tick;
      t' == w.tick || (UserRuns(w) && t'.procs != [] && t'.wake == Some(true))
  {
    hide FifoFits, HandlesFit, LookupsFit, ErrorsFit, TcpSpec.Apply, TimerSpec.Apply, OneShot, Periodic;
    hide TimerSpec.Enabled, UserRuns;
  }

  lemma RubyIsNotEntering(w: World)
    requires Inv(w) && UserRuns(w)
    ensures !w.control.main.Entering?
  {
    hide FifoFits, HandlesFit, LookupsFit, ErrorsFit;
  }

  lemma CallsKeepTheIdle(w: World, e: Event)
    requires Inv(w) && Enabled(w, e) && IsCall(e) && IdleFits(w)
    ensures IdleFits(Apply(w, e))
  {
    hide Inv, Enabled, Apply, UserRuns;
    CallsLeaveTheCode(w, e);
    CallsMoveTheTick(w, e);
    if UserRuns(w) {
      RubyIsNotEntering(w);
    }
  }

  lemma WakeKeepsTheIdle(w: World, q: Queue)
    requires Enabled(w, WakeFires(q)) && IdleFits(w)
    ensures IdleFits(Apply(w, WakeFires(q)))
  {
    hide Enabled, Apply;
    WakeIs(w, q);
  }

  lemma TakeKeepsTheIdle(w: World)
    requires Enabled(w, TakeProcs) && IdleFits(w)
    ensures IdleFits(Apply(w, TakeProcs))
  {
    hide Enabled, Apply;
    TakeIs(w);
  }

  lemma StartKeepsTheIdle(w: World)
    requires Enabled(w, StartProc) && IdleFits(w)
    ensures IdleFits(Apply(w, StartProc))
  {
    hide Enabled, Apply;
    StartIs(w);
  }

  lemma LockKeepsTheIdle(w: World, t: Tid)
    requires Inv(w) && Enabled(w, Lock(t))
    ensures IdleFits(Apply(w, Lock(t)))
  {
    hide FifoFits, HandlesFit, LookupsFit, ErrorsFit;
  }

  lemma RestKeepsTheIdle(w: World, e: Event)
    requires Inv(w) && Enabled(w, e) && !IsCall(e) && IdleFits(w)
    requires !e.WakeFires? && !e.TakeProcs? && !e.StartProc? && !e.Lock?
    ensures IdleFits(Apply(w, e))
  {
    hide FifoFits, HandlesFit, LookupsFit, ErrorsFit, TcpSpec.EntersRuby, NothingActive, AllVisited, IsStored;
    hide TcpSpec.Apply, TimerSpec.Apply, TcpSpec.Made, TcpSpec.Enabled, TimerSpec.Enabled;
    match e
    case Raise(_) =>
    case DestroyNext(_) =>
    case _ =>
  }

  lemma StepKeepsTheIdle(w: World, e: Event)
    requires Inv(w) && Enabled(w, e) && IdleFits(w)
    ensures IdleFits(Apply(w, e))
  {
    hide Inv, Enabled, Apply, IdleFits;
    if IsCall(e) {
      CallsKeepTheIdle(w, e);
    } else if e.WakeFires? {
      WakeKeepsTheIdle(w, e.q);
    } else if e.TakeProcs? {
      TakeKeepsTheIdle(w);
    } else if e.StartProc? {
      StartKeepsTheIdle(w);
    } else if e.Lock? {
      LockKeepsTheIdle(w, e.t);
    } else {
      RestKeepsTheIdle(w, e);
    }
  }

  lemma {:induction false} RunKeepsTheIdle(w: World, es: seq<Event>)
    requires Inv(w) && IsLegal(w, es) && IdleFits(w)
    ensures IdleFits(Run(w, es))
    decreases |es|
  {
    hide Inv, Enabled, Apply, IdleFits;
    if es != [] {
      StepKeeps(w, es[0]);
      StepKeepsTheIdle(w, es[0]);
      RunKeepsTheIdle(Apply(w, es[0]), es[1..]);
    }
  }

  // In every reachable state of a running engine the idle handle is active if and only if
  // there are procs for it whose callback has not begun: it is started with the first proc
  // and stopped by its callback.
  lemma IdleRunsWhileProcsWait(w: World, es: seq<Event>)
    requires IsReached(w, es) && w.engine.status.Running?
    ensures w.tick.wake == Some(true) <==> w.tick.procs != [] && w.control.main != Entering(Tick)
  {
    hide Inv, Enabled, Apply;
    InitialFits();
    RunKeepsTheIdle(INITIAL, es);
  }

  // A callback of a queue consumes the wake-up, and takes all the procs that wait then.
  lemma WakingTakesAll(w: World, q: Queue)
    requires Enabled(w, WakeFires(q))
    ensures var w1 := Apply(w, WakeFires(q));
      && w1.control.main == Entering(q) && FifoOf(w1, q) == FifoOf(w, q).(wake := Some(false))
      && Enabled(w1, TakeProcs)
      && var w2 := Apply(w1, TakeProcs);
         w2.control.main == InBatch(q, FifoOf(w, q).procs) && FifoOf(w2, q).procs == []
  {
    hide Enabled, Apply;
    WakeIs(w, q);
    WokenIsEntering(w, q);
    TakeIs(Awoken(w, q));
  }

  // -------- Ruby code, entered and left --------

  // What the C code may enter next: nothing while Ruby code runs; a callback of a socket, a
  // timer, a lookup or the async handle of the ubf; a block of a batch; or the
  // on_disconnected of a socket that is destroyed.
  predicate EntersCode(w: World, e: Event)
    requires Enabled(w, e)
  {
    match e
    case SockUv(i, event) => TcpSpec.EntersRuby(w.handles.socks[i], event)
    case TimerUv(_, event) => event.UvFires?
    case LookupDone(_) => w.engine.status.Running?
    case UbfFires => w.engine.status.Running?
    case StartProc => w.control.main.rest[0].UserProc?
    case DestroyNext(SockKey(i)) =>
      |TcpSpec.Apply(w.handles.socks[i], TcpSpec.DoDestroy).calls| > |w.handles.socks[i].calls|
    case _ => false
  }

  lemma DestroyEnters(w: World, k: Key)
    requires Enabled(w, DestroyNext(k))
    ensures UserRuns(Apply(w, DestroyNext(k))) <==> EntersCode(w, DestroyNext(k))
  {
    hide TcpSpec.Apply, TcpSpec.Made, TimerSpec.Apply, TcpSpec.Perform;
    if k.SockKey? {
      TcpSpec.StepFollows(w.handles.socks[k.i], TcpSpec.DoDestroy);
    }
  }

  lemma LoopEnters(w: World, e: Event)
    requires Inv(w) && Enabled(w, e) && !UserRuns(w) && !IsCall(e) && !e.DestroyNext?
    ensures e.EndTraversal? || (UserRuns(Apply(w, e)) <==> EntersCode(w, e))
    ensures e.EndTraversal? ==> (UserRuns(Apply(w, e)) <==> w.control.user.Guarded?)
  {
    hide FifoFits, HandlesFit, LookupsFit, ErrorsFit, TcpSpec.EntersRuby, NothingActive, AllVisited, IsStored;
    hide TcpSpec.Apply, TimerSpec.Apply, TcpSpec.Made, TcpSpec.Enabled, TimerSpec.Enabled;
    match e
    case Lock(_) =>
    case StartProc =>
    case _ =>
  }

  // No call enters or leaves Ruby code; the steps of libuv and of the C code enter it exactly
  // as listed. The end of a traversal goes back to the block that called AE.stop, if any did.
  lemma CodeIsEntered(w: World, es: seq<Event>, e: Event)
    requires IsReached(w, es) && Enabled(w, e) && !e.Return? && !e.Raise?
    ensures UserRuns(Apply(w, e)) <==>
      if IsCall(e) then UserRuns(w)
      else if e.EndTraversal? then w.control.user.Guarded?
      else EntersCode(w, e)
  {
    hide IsReached, Inv, Enabled, Apply, UserRuns, EntersCode;
    ReachedFits(w, es);
    if IsCall(e) {
      CallsLeaveTheCode(w, e);
      SameControl(w, Apply(w, e));
    } else {
      OnlyCallsInRuby(w, e);
      if e.DestroyNext? {
        DestroyEnters(w, e.k);
      } else {
        LoopEnters(w, e);
      }
    }
  }

  lemma SameControl(w: World, w': World)
    requires w'.control == w.control
    ensures UserRuns(w') <==> UserRuns(w)
  {
  }

  lemma OnlyCallsInRuby(w: World, e: Event)
    requires Inv(w) && Enabled(w, e) && !IsCall(e) && !e.Return? && !e.Raise?
    ensures !UserRuns(w)
  {
    hide FifoFits, HandlesFit, LookupsFit, ErrorsFit, NothingActive, AllVisited, IsStored, TcpSpec.Enabled;
    hide TimerSpec.Enabled;
  }

  // Ruby code that returns goes back to where it was called from, and changes nothing else.
  lemma ReturnGoesBack(w: World)
    requires UserRuns(w)
    ensures Enabled(w, Return)
    ensures var w' := Apply(w, Return);
      && !UserRuns(w') && w' == w.(control := w'.control) && w'.control.main == w.control.main
      && (if w.control.release.Traversing?
          then w'.control == w.control.(release := Traversing(w.control.release.visited, false))
          else w'.control == w.control.(user := NoUser))
  {
  }

  // An error enters the user error handler exactly when there is one, the error is a
  // StandardError, and it was raised by a callback or a block while the engine runs; in every
  // other case no Ruby code runs after it.
  lemma HandlerIsEntered(w: World, es: seq<Event>, error: Error)
    requires IsReached(w, es) && UserRuns(w)
    ensures Enabled(w, Raise(error))
    ensures var w' := Apply(w, Raise(error));
      && (UserRuns(w') <==>
            w.errors.handler && error.StandardError? && w.engine.status.Running? && w.control.user.Guarded?)
      && (UserRuns(w') ==> w' == w.(control := w.control.(user := Handling)))
      && (w.engine.status.Releasing? ==> w' == Apply(w, Return))
  {
    ReachedFits(w, es);
    hide IsReached, FifoFits, HandlesFit, LookupsFit, ErrorsFit;
  }

  // Whether there is a handler is what the last on_error or unset_on_error said.
  function LastSet(was: bool, es: seq<Event>): bool
    decreases |es|
  {
    if es == [] then was else LastSet(if es[0].SetHandler? then es[0].on else was, es[1..])
  }

  lemma {:induction false} HandlerIsTheLastSet(w: World, es: seq<Event>)
    requires IsLegal(w, es)
    ensures Run(w, es).errors.handler == LastSet(w.errors.handler, es)
    decreases |es|
  {
    hide Enabled, Apply;
    if es != [] {
      if IsCall(es[0]) {
        CallsMove(w, es[0]);
      } else {
        StepsMove(w, es[0]);
      }
      HandlerIsTheLastSet(Apply(w, es[0]), es[1..]);
    }
  }

  // -------- what the constructors make --------

  lemma NewSockIs(w: World, how: SockStart)
    requires UserRuns(w)
    ensures Enabled(w, SockNew(how)) && Apply(w, SockNew(how)) == SockMade(w, how)
  {
  }

  // A socket made while the engine runs is the last of the sockets: open, in @_handles, its
  // connect pending. None is made when libuv refuses, or when the engine does not run; a
  // refused connect leaves a handle behind that closes.
  lemma SocketIsMade(w: World, how: SockStart)
    requires UserRuns(w)
    ensures Enabled(w, SockNew(how))
    ensures var (hs, w') := (w.handles, Apply(w, SockNew(how)));
      && w' == w.(handles := w'.handles) && w'.handles.timers == hs.timers
      && (if w.engine.status.Running? && how.Connects? then
            && |w'.handles.socks| == |hs.socks| + 1 && w'.handles.socks[..|hs.socks|] == hs.socks
            && IsPending(w'.handles.socks[|hs.socks|]) && IsStored(w'.handles, SockKey(|hs.socks|))
            && w'.handles.orphans == hs.orphans
          else
            && w'.handles.socks == hs.socks
            && w'.handles.orphans == hs.orphans + (if w.engine.status.Running? && how.ConnectFails? then 1 else 0))
  {
    hide Enabled, Apply;
    NewSockIs(w, how);
  }

  // Open, connecting, and nothing done yet.
  predicate IsPending(s: TcpSpec.Sock) {
    && s.open && s.status.Connecting? && s.calls == [] && !s.timer
    && TcpSpec.Enabled(s, TcpSpec.UvConnect(true)) && TcpSpec.Enabled(s, TcpSpec.UvConnect(false))
  }

  lemma NewTimerIs(w: World, delay: int, how: TimerStart)
    requires UserRuns(w)
    ensures Enabled(w, TimerNew(delay, how))
    ensures Apply(w, TimerNew(delay, how)) == TimerMade(w, OneShot(delay, how))
  {
  }

  lemma NewPeriodicIs(w: World, interval: int, first: Option<int>, how: TimerStart)
    requires UserRuns(w)
    ensures Enabled(w, PeriodicNew(interval, first, how))
    ensures Apply(w, PeriodicNew(interval, first, how)) == TimerMade(w, Periodic(interval, first, how))
  {
  }

  // The timer made: one that runs at these times, or one that libuv could not start and that
  // only has to close.
  predicate IsTimed(t: TimerSpec.Timer, started: bool, delay: int, interval: int) {
    && t.delay == delay && t.interval == interval && (t.periodic <==> interval > 0) && t.fires == 0
    && (if started
        then t.uv == TimerSpec.UvTimer(true, delay, interval, 0, false) && t.open && t.stored
        else !t.uv.active && t.uv.closes == 1 && !t.uv.closed && !t.open && !t.stored)
  }

  predicate Appends(w: World, w': World, started: bool, delay: int, interval: int) {
    && |w'.handles.timers| == |w.handles.timers| + 1
    && w'.handles.timers[..|w.handles.timers|] == w.handles.timers
    && IsTimed(w'.handles.timers[|w.handles.timers|], started, delay, interval)
  }

  // Timer.new: the timer is the last of the timers, and libuv times it by the delay asked
  // for, at least 1 ms.
  lemma TimerIsMade(w: World, delay: int, how: TimerStart)
    requires UserRuns(w)
    ensures Enabled(w, TimerNew(delay, how))
    ensures var w' := Apply(w, TimerNew(delay, how));
      && w' == w.(handles := w.handles.(timers := w'.handles.timers))
      && (if w.engine.status.Running? && !how.TimerInitFails?
          then Appends(w, w', how.Starts?, TimerEffects.Max(delay, 1), 0)
          else w' == w)
  {
    hide Enabled, Apply;
    NewTimerIs(w, delay, how);
  }

  // PeriodicTimer.new: the interval asked for, at least 1 ms, and a first delay that is the
  // one given, at least 1 ms, or else the interval.
  lemma PeriodicTimerIsMade(w: World, interval: int, first: Option<int>, how: TimerStart)
    requires UserRuns(w)
    ensures Enabled(w, PeriodicNew(interval, first, how))
    ensures var w' := Apply(w, PeriodicNew(interval, first, how));
      && w' == w.(handles := w.handles.(timers := w'.handles.timers))
      && (if w.engine.status.Running? && !how.TimerInitFails?
          then Appends(w, w', how.Starts?, TimerEffects.Max(if first.Some? then first.value else interval, 1),
                       TimerEffects.Max(interval, 1))
          else w' == w)
  {
    hide Enabled, Apply;
    NewPeriodicIs(w, interval, first, how);
  }

  // Whatever can follow in the life of a socket can follow in the reactor: an event of libuv
  // whenever it polls, a call whenever Ruby code runs.
  lemma SocketLivesGoOn(w: World, i: nat, e: TcpSpec.Event)
    requires i < |w.handles.socks| && TcpSpec.Enabled(w.handles.socks[i], e) && !e.DoDestroy?
    requires if TcpSpec.IsUv(e) then IsPolling(w) else UserRuns(w)
    ensures var step := if TcpSpec.IsUv(e) then SockUv(i, e) else SockCall(i, e);
      && Enabled(w, step) && ReactorSockets.EventFor(step, i) == Some(e)
      && Apply(w, step).handles.socks == w.handles.socks[i := TcpSpec.Apply(w.handles.socks[i], e)]
  {
    hide TcpSpec.Enabled, TcpSpec.Apply, TcpSpec.EntersRuby;
  }

  lemma TimerLivesGoOn(w: World, i: nat, e: TimerSpec.Event)
    requires i < |w.handles.timers| && TimerSpec.Enabled(w.handles.timers[i], e)
    requires if TimerSpec.IsUv(e) then IsPolling(w) else UserRuns(w)
    ensures var step := if TimerSpec.IsUv(e) then TimerUv(i, e) else TimerCall(i, e);
      && Enabled(w, step) && ReactorTimers.EventFor(step, i) == Some(e)
      && Apply(w, step).handles.timers == w.handles.timers[i := TimerSpec.Apply(w.handles.timers[i], e)]
  {
    hide TimerSpec.Enabled, TimerSpec.Apply;
  }

  // -------- lookups --------

  lemma CallsMoveTheLookups(w: World, e: Event)
    requires Enabled(w, e) && IsCall(e)
    ensures Apply(w, e).lookups.pending == w.lookups.pending +
      (if e.ResolveCall? && e.ok && w.engine.status.Running? then {w.lookups.lastId + 1} else {})
  {
    hide CanCall, UserRuns, TcpSpec.Apply, TimerSpec.Apply, OneShot, Periodic, Push, TimerSpec.Enabled;
    assert w.lookups.pending + {} == w.lookups.pending;
  }

  lemma StepsMoveTheLookups(w: World, e: Event)
    requires Enabled(w, e) && !IsCall(e)
    ensures Apply(w, e).lookups.pending == w.lookups.pending - (if e.LookupDone? then {e.id} else {})
  {
    hide TcpSpec.EntersRuby, NothingActive, AllVisited, IsStored, TcpSpec.Apply, TimerSpec.Apply, TcpSpec.Made;
    hide TcpSpec.Enabled, TimerSpec.Enabled;
    assert w.lookups.pending - {} == w.lookups.pending;
    match e
    case Raise(_) =>
    case StartProc =>
    case DestroyNext(_) =>
    case _ =>
  }

  lemma FreshId(w: World)
    requires Inv(w)
    ensures w.lookups.lastId + 1 !in w.lookups.pending
  {
    hide FifoFits, HandlesFit, ErrorsFit, EngineFits, ControlFits;
  }

  // A lookup is pending from a call that libuv accepts on a running engine, under a number no
  // other pending lookup has, until its one answer; while the internal handles exist, @_procs
  // holds exactly the procs of the pending lookups.
  lemma LookupsMove(w: World, es: seq<Event>, e: Event)
    requires IsReached(w, es) && Enabled(w, e)
    ensures var (l, l') := (w.lookups, Apply(w, e).lookups);
      && l'.pending ==
         (if e.ResolveCall? && e.ok && w.engine.status.Running? then l.pending + {l.lastId + 1}
          else if e.LookupDone? then l.pending - {e.id}
          else l.pending)
      && l.lastId + 1 !in l.pending
      && (HandlesLoaded(w.engine.status, w.control) ==> l.procs == l.pending)
  {
    hide IsReached, Enabled, Apply;
    ReachedFits(w, es);
    FreshId(w);
    if IsCall(e) {
      CallsMoveTheLookups(w, e);
    } else {
      StepsMoveTheLookups(w, e);
    }
  }

  // -------- what has no Ruby object --------

  // The closing handles that no Ruby object has: three internal ones at the end of each
  // traversal, and one for each connect that libuv refused at once.
  lemma OrphansAreCounted(w: World, e: Event)
    requires Enabled(w, e)
    ensures Apply(w, e).handles.orphans == w.handles.orphans
      + (if e.EndTraversal? then 3 else if e.SockNew? && e.how.ConnectFails? && w.engine.status.Running? then 1 else 0)
      - (if e.OrphanCloses? then 1 else 0)
  {
    hide Enabled, Apply;
    if IsCall(e) {
      CallsMove(w, e);
    } else {
      StepsMove(w, e);
    }
  }

  lemma StepsKeepTheUbf(w: World, e: Event)
    requires Enabled(w, e) && !IsCall(e) && !e.Lock? && !e.EndTraversal?
    ensures Apply(w, e).ubf == if e.UbfFires? then Some(false) else w.ubf
  {
    hide TcpSpec.EntersRuby, NothingActive, AllVisited, IsStored, TcpSpec.Apply, TimerSpec.Apply, TcpSpec.Made;
    hide TcpSpec.Enabled, TimerSpec.Enabled;
    match e
    case Raise(_) =>
    case StartProc =>
    case DestroyNext(_) =>
    case _ =>
  }

  // An interrupt sent to the loop thread of a running engine is not lost: from then on, until
  // the loop sees it or its handles are closed, it is pending, and libuv can deliver it
  // whenever it polls.
  lemma {:induction false} InterruptIsNotLost(w: World, es: seq<Event>)
    requires Inv(w) && w.engine.status.Running? && IsLegal(Apply(w, UbfSend), es)
    requires forall i | 0 <= i < |es| :: !es[i].UbfFires? && !es[i].EndTraversal?
    ensures var w' := Run(Apply(w, UbfSend), es);
      w'.ubf == Some(true) && (IsPolling(w') ==> Enabled(w', UbfFires))
  {
    hide Inv, Enabled, Apply, IsPolling;
    UbfIsSent(w);
    CallsMove(w, UbfSend);
    UbfKeeps(w);
    UbfStays(Apply(w, UbfSend), es);
    UbfIsDue(Run(Apply(w, UbfSend), es));
  }

  lemma UbfIsSent(w: World)
    ensures Enabled(w, UbfSend)
  {
  }

  lemma UbfIsDue(w: World)
    ensures IsPolling(w) && w.ubf == Some(true) ==> Enabled(w, UbfFires)
  {
  }

  lemma UbfKeeps(w: World)
    requires Inv(w) && Enabled(w, UbfSend)
    ensures Inv(Apply(w, UbfSend))
  {
    StepKeeps(w, UbfSend);
  }

  lemma {:induction false} UbfStays(w: World, es: seq<Event>)
    requires Inv(w) && IsLegal(w, es) && w.ubf == Some(true)
    requires forall i | 0 <= i < |es| :: !es[i].UbfFires? && !es[i].EndTraversal?
    ensures Run(w, es).ubf == Some(true)
    decreases |es|
  {
    hide Inv, Enabled, Apply;
    if es != [] {
      StepKeeps(w, es[0]);
      assert !es[0].UbfFires? && !es[0].EndTraversal?;
      if IsCall(es[0]) {
        CallsMove(w, es[0]);
      } else if es[0].Lock? {
        LockFindsNoUbf(w, es[0].t);
      } else {
        StepsKeepTheUbf(w, es[0]);
      }
      UbfStays(Apply(w, es[0]), es[1..]);
    }
  }

  lemma LockFindsNoUbf(w: World, t: Tid)
    requires Inv(w) && Enabled(w, Lock(t))
    ensures w.ubf.None?
  {
    hide FifoFits, HandlesFit, LookupsFit, ErrorsFit;
  }
}
