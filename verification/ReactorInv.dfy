/**
  Every step of the reactor keeps ReactorSpec.Inv, whatever the program, libuv and the other
  threads do.
 */
module ReactorInv {
  import opened Wrappers
  import TcpSpec
  import TimerSpec
  import opened ReactorSpec

  // -------- the queues --------

  lemma PushFits(status: AeStatus, c: Control, q: Queue, f: Fifo, p: Proc)
    requires FifoFits(status, c, q, f) && status.Running?
    ensures FifoFits(status, c, q, Push(f, p))
  {
    var (s, b) := (f.started, BatchRest(c, q));
    assert s + b + f.procs + [p] == s + b + (f.procs + [p]);
    assert s <= s + b + f.procs + [p];
  }

  lemma AcceptKeeps(w: World, q: Queue, p: Proc)
    requires Inv(w)
    ensures Inv(Accept(w, q, p))
  {
    if w.engine.status.Running? {
      PushFits(w.engine.status, w.control, q, FifoOf(w, q), p);
    }
  }

  lemma AwokenKeeps(w: World, q: Queue)
    requires Inv(w) && IsPolling(w) && FifoOf(w, q).wake == Some(true)
    ensures Inv(Awoken(w, q))
  {
  }

  lemma ProcsTakenKeeps(w: World)
    requires Inv(w) && InUvRun(w) && w.control.main.Entering?
    ensures Inv(ProcsTaken(w, w.control.main.q))
  {
    var f := FifoOf(w, w.control.main.q);
    assert f.started + [] + f.procs == f.started + f.procs + [];
  }

  lemma Regroup<T>(a: seq<T>, b: seq<T>, c: seq<T>)
    requires b != []
    ensures a + b + c == (a + [b[0]]) + b[1..] + c
    ensures a + [b[0]] <= a + b + c
  {
  }

  lemma ProcStartedKeeps(w: World)
    requires Inv(w) && InUvRun(w) && w.control.main.InBatch? && w.control.main.rest != []
    requires w.engine.status.Running?
    ensures Inv(ProcStarted(w, w.control.main.q, w.control.main.rest))
  {
    var q, rest := w.control.main.q, w.control.main.rest;
    Regroup(FifoOf(w, q).started, rest, FifoOf(w, q).procs);
  }

  lemma BatchEndedKeeps(w: World)
    requires Inv(w) && InUvRun(w) && w.control.main.InBatch?
    requires w.control.main.rest == [] || !w.engine.status.Running?
    ensures Inv(BatchEnded(w))
  {
  }

  // -------- the run --------

  lemma RunCalledKeeps(w: World, t: Tid, p: Proc)
    requires Inv(w) && CanCall(w, t)
    ensures Inv(RunCalled(w, t, p))
  {
    AcceptKeeps(w, if OnLoopThread(w, t) then Tick else Other, p);
  }

  lemma LockedKeeps(w: World, t: Tid, p: Proc)
    requires Inv(w) && t in w.engine.waiting && w.engine.mutex.None?
    ensures Inv(Locked(w, t, p))
  {
  }

  lemma ExitedKeeps(w: World)
    requires Inv(w) && IsPolling(w) && NothingActive(w)
    ensures Inv(Exited(w))
  {
  }

  // -------- errors --------

  lemma ExitWithKeeps(w: World, error: Error)
    requires Inv(w) && w.engine.status.Running? && !w.control.user.NoUser?
    ensures Inv(ExitWith(w, error))
  {
  }

  lemma ReturnedKeeps(w: World)
    requires Inv(w) && UserRuns(w)
    ensures Inv(Returned(w))
  {
  }

  lemma RaisedKeeps(w: World, error: Error)
    requires Inv(w) && UserRuns(w)
    ensures Inv(Raised(w, error))
  {
    if w.engine.status.Running? {
      ExitWithKeeps(w, error);
    } else {
      ReturnedKeeps(w);
    }
  }

  // -------- the handles --------

  lemma SockFacts(s: TcpSpec.Sock, e: TcpSpec.Event)
    requires TcpSpec.Inv(s) && TcpSpec.Enabled(s, e)
    ensures TcpSpec.Inv(TcpSpec.Apply(s, e)) && (TcpSpec.Apply(s, e).open ==> s.open)
  {
    hide TcpSpec.Inv, TcpSpec.Enabled, TcpSpec.Apply, TcpSpec.Made;
    TcpSpec.StepKeeps(s, e);
    TcpSpec.StepFollows(s, e);
  }

  // A handle may be replaced by one that fits and is not open again.
  lemma HandlesFitWithSock(status: AeStatus, c: Control, hs: Handles, i: nat, s: TcpSpec.Sock)
    requires HandlesFit(status, c, hs) && !status.Stopped?
    requires i < |hs.socks| && TcpSpec.Inv(s) && (s.open ==> hs.socks[i].open)
    ensures HandlesFit(status, c, WithSock(hs, i, s))
  {
    hide TcpSpec.Inv, TimerSpec.Inv, IsQuiet;
  }

  lemma HandlesFitWithTimer(status: AeStatus, c: Control, hs: Handles, i: nat, t: TimerSpec.Timer)
    requires HandlesFit(status, c, hs) && !status.Stopped?
    requires i < |hs.timers| && TimerSpec.Inv(t) && (t.open ==> hs.timers[i].open)
    ensures HandlesFit(status, c, WithTimer(hs, i, t))
  {
    hide TcpSpec.Inv, TimerSpec.Inv, IsQuiet;
  }

  // Entering Ruby from the loop fits, whatever the handles are.
  lemma EnteredFits(w: World, hs: Handles, ruby: bool)
    requires Inv(w) && ((UserRuns(w) && !ruby) || IsPolling(w))
    requires HandlesFit(w.engine.status, w.control, hs)
    ensures Inv(w.(handles := hs, control := Entered(w.control, ruby)))
  {
    hide TcpSpec.Inv, TimerSpec.Inv, EachFits, AllClosed, IsQuiet, IsClosed;
  }

  lemma SockSteppedKeeps(w: World, i: nat, e: TcpSpec.Event, ruby: bool)
    requires Inv(w) && i < |w.handles.socks| && TcpSpec.Enabled(w.handles.socks[i], e)
    requires (UserRuns(w) && !ruby) || IsPolling(w)
    ensures Inv(SockStepped(w, i, e, ruby))
  {
    hide TcpSpec.Inv, TcpSpec.Enabled, TcpSpec.Apply, TimerSpec.Inv, FifoFits, LookupsFit, ErrorsFit, EngineFits;
    hide IsClosed, AllClosed, IsQuiet, Entered, WithSock;
    SockFacts(w.handles.socks[i], e);
    HandlesFitWithSock(w.engine.status, w.control, w.handles, i, TcpSpec.Apply(w.handles.socks[i], e));
    EnteredFits(w, WithSock(w.handles, i, TcpSpec.Apply(w.handles.socks[i], e)), ruby);
  }

  lemma TimerFacts(t: TimerSpec.Timer, e: TimerSpec.Event)
    requires TimerSpec.Inv(t) && TimerSpec.Enabled(t, e)
    ensures TimerSpec.Inv(TimerSpec.Apply(t, e)) && (TimerSpec.Apply(t, e).open ==> t.open)
  {
    TimerSpec.StepKeeps(t, e);
  }

  lemma TimerSteppedKeeps(w: World, i: nat, e: TimerSpec.Event, ruby: bool)
    requires Inv(w) && i < |w.handles.timers| && TimerSpec.Enabled(w.handles.timers[i], e)
    requires (UserRuns(w) && !ruby) || IsPolling(w)
    ensures Inv(TimerStepped(w, i, e, ruby))
  {
    hide TimerSpec.Inv, TimerSpec.Enabled, TimerSpec.Apply, TcpSpec.Inv, FifoFits, LookupsFit, ErrorsFit, EngineFits;
    hide IsClosed, AllClosed, IsQuiet, Entered, WithTimer;
    TimerFacts(w.handles.timers[i], e);
    HandlesFitWithTimer(w.engine.status, w.control, w.handles, i, TimerSpec.Apply(w.handles.timers[i], e));
    EnteredFits(w, WithTimer(w.handles, i, TimerSpec.Apply(w.handles.timers[i], e)), ruby);
  }

  lemma CallIsEnabled(s: TcpSpec.Sock, e: TcpSpec.Event)
    requires !TcpSpec.IsUv(e)
    ensures TcpSpec.Enabled(s, e)
  {
  }

  lemma SockMadeKeeps(w: World, how: SockStart)
    requires Inv(w) && UserRuns(w)
    ensures Inv(SockMade(w, how))
  {
    TcpSpec.CreatedKeeps();
  }

  lemma TimerMadeKeeps(w: World, t: Option<TimerSpec.Timer>)
    requires Inv(w) && UserRuns(w) && (t.Some? ==> TimerSpec.Inv(t.value))
    ensures Inv(TimerMade(w, t))
  {
  }

  lemma OneShotKeeps(w: World, delay: int, how: TimerStart)
    requires Inv(w) && UserRuns(w)
    ensures Inv(TimerMade(w, OneShot(delay, how)))
  {
    hide Inv, TimerMade, TimerSpec.New;
    TimerSpec.NewKeeps(1, Some(delay), how.Starts?);
    TimerMadeKeeps(w, OneShot(delay, how));
  }

  lemma PeriodicKeeps(w: World, interval: int, first: Option<int>, how: TimerStart)
    requires Inv(w) && UserRuns(w)
    ensures Inv(TimerMade(w, Periodic(interval, first, how)))
  {
    hide Inv, TimerMade, TimerSpec.NewPeriodic;
    TimerSpec.NewKeeps(interval, first, how.Starts?);
    TimerMadeKeeps(w, Periodic(interval, first, how));
  }

  lemma ResolvedKeeps(w: World, ok: bool)
    requires Inv(w)
    ensures Inv(Resolved(w, ok))
  {
  }

  lemma LookupFinishedKeeps(w: World, id: nat)
    requires Inv(w) && IsPolling(w) && id in w.lookups.pending
    ensures Inv(LookupFinished(w, id))
  {
  }

  lemma OrphanClosedKeeps(w: World)
    requires Inv(w) && IsPolling(w) && w.handles.orphans > 0
    ensures Inv(OrphanClosed(w))
  {
  }

  lemma UbfFiredKeeps(w: World)
    requires Inv(w) && IsPolling(w) && w.ubf == Some(true)
    ensures Inv(UbfFired(w))
  {
  }

  lemma FlagsKeep(w: World, on: bool)
    requires Inv(w)
    ensures Inv(w.(errors := w.errors.(handler := on)))
    ensures w.engine.status.Running? ==> Inv(w.(ubf := Some(true)))
  {
  }

  // -------- releasing --------

  // One more entry visited, which is closed now.
  lemma VisitedFits(w: World, hs: Handles, k: Key, calling: bool)
    requires Inv(w) && w.control.release.Traversing? && IsClosed(hs, k)
    requires HandlesFit(w.engine.status, w.control, hs)
    ensures Inv(w.(handles := hs,
                   control := w.control.(release := Traversing(w.control.release.visited + {k}, calling))))
  {
    hide TcpSpec.Inv, TimerSpec.Inv, EachFits, AllClosed, IsQuiet, IsClosed;
  }

  lemma DestroyedKeeps(w: World, k: Key)
    requires Inv(w) && w.control.release.Traversing? && !w.control.release.calling && IsStored(w.handles, k)
    ensures Inv(Destroyed(w, w.control.release.visited, k))
  {
    hide TcpSpec.Inv, TcpSpec.Apply, TimerSpec.Inv, TimerSpec.Apply, FifoFits, LookupsFit, ErrorsFit, EngineFits;
    hide AllClosed, IsQuiet, TcpSpec.Made;
    if k.SockKey? {
      var s := w.handles.socks[k.i];
      SockFacts(s, TcpSpec.DoDestroy);
      DestroyCloses(s);
      var hs := WithSock(w.handles, k.i, TcpSpec.Apply(s, TcpSpec.DoDestroy));
      HandlesFitWithSock(w.engine.status, w.control, w.handles, k.i, TcpSpec.Apply(s, TcpSpec.DoDestroy));
      VisitedFits(w, hs, k, TcpSpec.Made(s, TcpSpec.DoDestroy).Some?);
    } else {
      var t := w.handles.timers[k.i];
      TimerFacts(t, TimerSpec.DoDestroy);
      DestroyClosesTimer(t);
      var hs := WithTimer(w.handles, k.i, TimerSpec.Apply(t, TimerSpec.DoDestroy));
      HandlesFitWithTimer(w.engine.status, w.control, w.handles, k.i, TimerSpec.Apply(t, TimerSpec.DoDestroy));
      VisitedFits(w, hs, k, false);
    }
  }

  lemma DestroyCloses(s: TcpSpec.Sock)
    ensures !TcpSpec.Apply(s, TcpSpec.DoDestroy).open && TcpSpec.Enabled(s, TcpSpec.DoDestroy)
  {
  }

  lemma DestroyClosesTimer(t: TimerSpec.Timer)
    ensures !TimerSpec.Apply(t, TimerSpec.DoDestroy).open && TimerSpec.Enabled(t, TimerSpec.DoDestroy)
  {
  }

  lemma UnloadedKeeps(w: World)
    requires Inv(w) && w.control.release.Traversing? && AllVisited(w.handles, w.control.release.visited)
    ensures Inv(Unloaded(w))
  {
    var (hs, visited) := (w.handles, w.control.release.visited);
    forall i | 0 <= i < |hs.socks|
      ensures !hs.socks[i].open
    {
      if hs.socks[i].stored {
        assert IsClosed(hs, SockKey(i));
      }
    }
    forall i | 0 <= i < |hs.timers|
      ensures !hs.timers[i].open
    {
      if hs.timers[i].stored {
        assert IsClosed(hs, TimerKey(i));
      }
    }
  }

  // -------- every step --------

  // Steps of any thread, or of the program's code.
  predicate IsCall(e: Event) {
    || e.RunCall? || e.StopCall? || e.OtherCall? || e.SetHandler? || e.UbfSend? || e.TickCall?
    || e.SockNew? || e.SockCall? || e.TimerNew? || e.PeriodicNew? || e.TimerCall? || e.ResolveCall?
  }

  lemma QueueCallKeeps(w: World, e: Event)
    requires Inv(w) && Enabled(w, e)
    requires e.RunCall? || e.StopCall? || e.OtherCall? || e.SetHandler? || e.UbfSend? || e.TickCall?
    ensures Inv(Apply(w, e))
  {
    hide Inv, Accept, RunCalled, CanCall, UserRuns;
    match e
    case RunCall(t, p) => RunCalledKeeps(w, t, p);
    case StopCall(t) => AcceptKeeps(w, if OnLoopThread(w, t) then Tick else Other, ReleaseProc);
    case OtherCall(_, p) => AcceptKeeps(w, Other, p);
    case SetHandler(on) => FlagsKeep(w, on);
    case UbfSend => FlagsKeep(w, true);
    case TickCall(p) => AcceptKeeps(w, Tick, p);
  }

  lemma HandleCallKeeps(w: World, e: Event)
    requires Inv(w) && Enabled(w, e)
    requires e.SockNew? || e.SockCall? || e.TimerNew? || e.PeriodicNew? || e.TimerCall? || e.ResolveCall?
    ensures Inv(Apply(w, e))
  {
    hide Inv, Resolved, SockMade, TimerMade, SockStepped, TimerStepped, UserRuns, TimerSpec.Enabled, TcpSpec.Enabled;
    hide OneShot, Periodic;
    match e
    case SockNew(how) => SockMadeKeeps(w, how);
    case SockCall(i, call) => CallIsEnabled(w.handles.socks[i], call); SockSteppedKeeps(w, i, call, false);
    case TimerNew(delay, how) => OneShotKeeps(w, delay, how);
    case PeriodicNew(interval, first, how) => PeriodicKeeps(w, interval, first, how);
    case TimerCall(i, call) => TimerSteppedKeeps(w, i, call, false);
    case ResolveCall(ok) => ResolvedKeeps(w, ok);
  }

  lemma CallKeeps(w: World, e: Event)
    requires Inv(w) && Enabled(w, e) && IsCall(e)
    ensures Inv(Apply(w, e))
  {
    hide Inv, Enabled, Apply;
    if e.RunCall? || e.StopCall? || e.OtherCall? || e.SetHandler? || e.UbfSend? || e.TickCall? {
      QueueCallKeeps(w, e);
    } else {
      HandleCallKeeps(w, e);
    }
  }

  lemma OtherStepKeeps(w: World, e: Event)
    requires Inv(w) && Enabled(w, e) && !IsCall(e)
    ensures Inv(Apply(w, e))
  {
    hide Inv, Locked, Raised, Returned, SockStepped, TimerStepped, OrphanClosed, LookupFinished, Awoken;
    hide UbfFired, Exited, ProcsTaken, ProcStarted, BatchEnded, Destroyed, Unloaded;
    hide UserRuns, InUvRun, IsPolling, NothingActive, AllVisited, IsStored, FifoOf;
    match e
    case Lock(t) => LockedKeeps(w, t, w.engine.waiting[t]);
    case Return => ReturnedKeeps(w);
    case Raise(error) => RaisedKeeps(w, error);
    case SockUv(i, event) => SockSteppedKeeps(w, i, event, TcpSpec.EntersRuby(w.handles.socks[i], event));
    case TimerUv(i, event) => TimerSteppedKeeps(w, i, event, event.UvFires?);
    case OrphanCloses => OrphanClosedKeeps(w);
    case LookupDone(id) => LookupFinishedKeeps(w, id);
    case WakeFires(q) => AwokenKeeps(w, q);
    case UbfFires => UbfFiredKeeps(w);
    case LoopExits => ExitedKeeps(w);
    case TakeProcs => ProcsTakenKeeps(w);
    case StartProc => ProcStartedKeeps(w);
    case EndBatch => BatchEndedKeeps(w);
    case DestroyNext(k) => DestroyedKeeps(w, k);
    case EndTraversal => UnloadedKeeps(w);
  }

  lemma StepKeeps(w: World, e: Event)
    requires Inv(w) && Enabled(w, e)
    ensures Inv(Apply(w, e))
  {
    hide Inv, Enabled, Apply;
    if IsCall(e) {
      CallKeeps(w, e);
    } else {
      OtherStepKeeps(w, e);
    }
  }

  // -------- what a step leaves alone --------

  // The procs a call hands to a queue.
  function Offered(w: World, e: Event, q: Queue): seq<Proc> {
    match e
    case RunCall(t, p) => if OnLoopThread(w, t) <==> q.Tick? then [p] else []
    case StopCall(t) => if OnLoopThread(w, t) <==> q.Tick? then [ReleaseProc] else []
    case OtherCall(_, p) => if q.Other? then [p] else []
    case TickCall(p) => if q.Tick? then [p] else []
    case _ => []
  }

  // No call of the program or of another thread moves the C code, changes the status or
  // starts a proc; what it hands to the queues is accepted while the engine runs.
  lemma CallsLeaveTheCode(w: World, e: Event)
    requires Inv(w) && Enabled(w, e) && IsCall(e)
    ensures var w' := Apply(w, e);
      && w'.control == w.control
      && w'.engine == w.engine.(waiting := w'.engine.waiting)
      && w'.tick.started == w.tick.started && w'.other.started == w.other.started
      && w'.errors.exit == w.errors.exit
  {
    hide Inv, WithSock, WithTimer, CanCall;
  }

  lemma CallsOffer(w: World, e: Event, q: Queue)
    requires Enabled(w, e) && IsCall(e)
    ensures FifoOf(Apply(w, e), q).accepted ==
      FifoOf(w, q).accepted + (if w.engine.status.Running? then Offered(w, e, q) else [])
  {
    hide WithSock, WithTimer, CanCall, UserRuns;
    NothingAdded(FifoOf(w, q).accepted);
  }

  lemma NothingAdded<T>(s: seq<T>)
    ensures s + [] == s
  {
  }

  // Of the other steps, the engine moves in four and the release in five.
  lemma StepsMoveTheEngine(w: World, e: Event)
    requires Inv(w) && Enabled(w, e) && !IsCall(e)
    ensures var (s, s') := (w.engine.status, Apply(w, e).engine.status);
      || s' == s
      || (s.Running? && s'.Releasing? && (e.Raise? || e.StartProc?))
      || (s.Releasing? && s'.Stopped? && e.LoopExits?)
      || (s.Stopped? && s'.Running? && e.Lock?)
  {
    hide WithSock, WithTimer, HandlesFit, LookupsFit, TcpSpec.EntersRuby, FifoOf, AllVisited, Push, Loaded;
    hide TcpSpec.Apply, TcpSpec.Made, TcpSpec.Enabled, TimerSpec.Apply, TimerSpec.Enabled, ErrorsFit;
  }

  lemma StepsMoveTheHandles(w: World, e: Event)
    requires Inv(w) && Enabled(w, e) && !IsCall(e)
    ensures var w' := Apply(w, e);
      var (l, l') := (HandlesLoaded(w.engine.status, w.control), HandlesLoaded(w'.engine.status, w'.control));
      (l && !l' <==> e.EndTraversal?) && (!l && l' <==> e.Lock?)
  {
    hide WithSock, WithTimer, HandlesFit, LookupsFit, TcpSpec.EntersRuby, FifoOf, AllVisited, Push, Loaded;
    hide TcpSpec.Apply, TcpSpec.Made, TcpSpec.Enabled, TimerSpec.Apply, TimerSpec.Enabled, ErrorsFit;
  }

  lemma StepsMoveTheQueues(w: World, e: Event, q: Queue)
    requires Enabled(w, e) && !IsCall(e) && !e.Lock?
    ensures FifoOf(Apply(w, e), q).accepted == FifoOf(w, q).accepted
    ensures e.StartProc? && w.control.main.q == q ==>
      FifoOf(Apply(w, e), q).started == FifoOf(w, q).started + [w.control.main.rest[0]]
    ensures !(e.StartProc? && w.control.main.q == q) ==> FifoOf(Apply(w, e), q).started == FifoOf(w, q).started
  {
    hide WithSock, WithTimer, TcpSpec.EntersRuby, NothingActive, AllVisited, IsStored;
    match e
    case Raise(_) =>
    case StartProc =>
    case DestroyNext(_) =>
    case _ =>
  }

  // Once the engine releases, no call adds to @_handles.
  lemma CallsStoreNothing(w: World, e: Event, k: Key)
    requires Inv(w) && Enabled(w, e) && IsCall(e) && !w.engine.status.Running?
    requires IsStored(Apply(w, e).handles, k)
    ensures IsStored(w.handles, k)
  {
    if e.SockCall? {
      SockStoresNothing(w, e.i, e.sockCall, k);
    } else if e.TimerCall? {
      TimerStoresNothing(w, e.i, e.timerCall, k);
    } else {
      CallsKeepTheHandles(w, e);
      hide Inv, Enabled, Apply, IsStored;
    }
  }

  lemma SockStoresNothing(w: World, i: nat, call: TcpSpec.Event, k: Key)
    requires i < |w.handles.socks| && IsStored(SockStepped(w, i, call, false).handles, k)
    ensures IsStored(w.handles, k)
  {
    hide TcpSpec.Apply;
    TcpSpec.StepFollows(w.handles.socks[i], call);
  }

  lemma TimerStoresNothing(w: World, i: nat, call: TimerSpec.Event, k: Key)
    requires i < |w.handles.timers| && IsStored(TimerStepped(w, i, call, false).handles, k)
    ensures IsStored(w.handles, k)
  {
    assert TimerSpec.Apply(w.handles.timers[i], call).stored ==> w.handles.timers[i].stored;
  }

  // When not running only the calls on a socket or a timer can touch the handles at all.
  lemma CallsKeepTheHandles(w: World, e: Event)
    requires Enabled(w, e) && IsCall(e) && !w.engine.status.Running? && !e.SockCall? && !e.TimerCall?
    ensures Apply(w, e).handles == w.handles && Apply(w, e).lookups == w.lookups
  {
    hide WithSock, WithTimer, CanCall, UserRuns, TcpSpec.Apply, TimerSpec.Apply, OneShot, Periodic;
  }

  // -------- steps, as functions on the state --------

  lemma RunCallIs(w: World, t: Tid, p: Proc)
    requires Enabled(w, RunCall(t, p))
    ensures Apply(w, RunCall(t, p)) == RunCalled(w, t, p)
  {
  }

  lemma StopIs(w: World, t: Tid)
    requires Enabled(w, StopCall(t))
    ensures Apply(w, StopCall(t)) == Accept(w, if OnLoopThread(w, t) then Tick else Other, ReleaseProc)
  {
  }

  lemma StartIs(w: World)
    requires Enabled(w, StartProc)
    ensures InUvRun(w) && w.control.main.InBatch? && w.control.main.rest != [] && w.engine.status.Running?
    ensures Apply(w, StartProc) == ProcStarted(w, w.control.main.q, w.control.main.rest)
  {
  }

  lemma StartIsDue(w: World)
    requires InUvRun(w) && w.control.main.InBatch? && w.control.main.rest != [] && w.engine.status.Running?
    ensures Enabled(w, StartProc)
  {
  }

  lemma DestroyIs(w: World, k: Key)
    requires Enabled(w, DestroyNext(k))
    ensures w.control.release.Traversing? && IsStored(w.handles, k)
    ensures Apply(w, DestroyNext(k)) == Destroyed(w, w.control.release.visited, k)
  {
  }

  lemma TakeIs(w: World)
    requires Enabled(w, TakeProcs)
    ensures InUvRun(w) && w.control.main.Entering?
    ensures Apply(w, TakeProcs) == ProcsTaken(w, w.control.main.q)
  {
  }

  lemma WakeIs(w: World, q: Queue)
    requires Enabled(w, WakeFires(q))
    ensures IsPolling(w) && FifoOf(w, q).wake == Some(true) && Apply(w, WakeFires(q)) == Awoken(w, q)
  {
  }

  lemma WokenIsEntering(w: World, q: Queue)
    requires IsPolling(w)
    ensures Enabled(Awoken(w, q), TakeProcs)
  {
  }

  lemma SockUvIs(w: World, i: nat, event: TcpSpec.Event)
    requires Enabled(w, SockUv(i, event))
    ensures IsPolling(w) && i < |w.handles.socks|
    ensures Apply(w, SockUv(i, event)) == SockStepped(w, i, event, TcpSpec.EntersRuby(w.handles.socks[i], event))
  {
  }

  lemma TimerUvIs(w: World, i: nat, event: TimerSpec.Event)
    requires Enabled(w, TimerUv(i, event))
    ensures IsPolling(w) && i < |w.handles.timers|
    ensures Apply(w, TimerUv(i, event)) == TimerStepped(w, i, event, event.UvFires?)
  {
  }

  lemma LookupIs(w: World, id: nat)
    requires Enabled(w, LookupDone(id))
    ensures IsPolling(w) && Apply(w, LookupDone(id)) == LookupFinished(w, id)
  {
  }

  lemma UbfIs(w: World)
    requires Enabled(w, UbfFires)
    ensures IsPolling(w) && Apply(w, UbfFires) == UbfFired(w)
  {
  }

  lemma LockIs(w: World, t: Tid)
    requires Enabled(w, Lock(t))
    ensures t in w.engine.waiting && Apply(w, Lock(t)) == Locked(w, t, w.engine.waiting[t])
  {
  }

  lemma ExitIs(w: World)
    requires IsPolling(w) && NothingActive(w)
    ensures Enabled(w, LoopExits) && Apply(w, LoopExits) == Exited(w)
  {
  }
}
