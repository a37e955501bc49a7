/**
  The reactor of ext/asyncengine as a state machine: run, release and stop, the two queues of
  procs, the handle table, and the capture of errors. libuv and the program are the
  environment: libuv delivers any event it may, and whenever Ruby code of the program runs it
  makes any call, returns, or raises.

  A step is one piece of C code between two points where the program's code, libuv or
  another thread can act.
 */
module ReactorSpec {
  import opened Wrappers
  import TcpSpec
  import TimerSpec

  type Tid = nat

  datatype AeStatus = Running | Releasing | Stopped

  // A block of the program, or the one AE.stop passes, which calls release_loop.
  datatype Proc = UserProc(id: nat) | ReleaseProc

  // What rb_errinfo gives for an error raised by the program: an exception, which may be a
  // StandardError, or the Fixnum 8 of a Thread#kill. An Interrupt is made in its place.
  datatype Error = StandardError(id: nat) | OtherError(id: nat) | Killed | Interrupt

  // AE_status, AE_mutex, AE_thread, and the threads inside rb_mutex_lock with the proc each
  // gave to AE.run.
  datatype Engine = Engine(status: AeStatus, mutex: Option<Tid>, thread: Option<Tid>, waiting: map<Tid, Proc>)

  datatype Queue = Tick | Other

  // One queue of procs and the uv handle that wakes the loop for it: NULL, or whether the
  // idle handle is active (Tick), or whether an async send is pending (Other). The procs
  // accepted and those started in the current run are kept as history.
  datatype Fifo = Fifo(procs: seq<Proc>, wake: Option<bool>, accepted: seq<Proc>, started: seq<Proc>)

  // The sockets and timers made so far, and the closing uv handles that have no Ruby object.
  datatype Handles = Handles(socks: seq<TcpSpec.Sock>, timers: seq<TimerSpec.Timer>, orphans: nat)

  datatype Key = SockKey(i: nat) | TimerKey(i: nat)

  // @_procs and the getaddrinfo requests that refer to it.
  datatype Lookups = Lookups(procs: set<nat>, pending: set<nat>, lastId: nat)

  // Where the loop thread is inside libuv: polling, in the callback of a queue before it
  // takes the procs, or iterating over them.
  datatype Main = Polling | Entering(q: Queue) | InBatch(q: Queue, rest: seq<Proc>)

  // Whose Ruby code was entered last: nobody's, a callback or proc under
  // ae_run_with_error_handler, or the user error handler.
  datatype User = NoUser | Guarded | Handling

  // ae_release_loop: whether it is iterating over @_handles, the entries visited, and
  // whether a `destroy` is running the program's code.
  datatype Release = NoRelease | Traversing(visited: set<Key>, calling: bool)

  datatype Control = Control(main: Main, user: User, release: Release)

  // @_user_error_handler is set; @_exit_error; and how many times it was set in this run.
  datatype Errors = Errors(handler: bool, exit: Option<Error>, times: nat)

  datatype World = World(
    engine: Engine,
    tick: Fifo,
    other: Fifo,
    ubf: Option<bool>,
    handles: Handles,
    lookups: Lookups,
    control: Control,
    errors: Errors
  )

  const INITIAL := World(
    Engine(Stopped, None, None, map[]), Fifo([], None, [], []), Fifo([], None, [], []), None,
    Handles([], [], 0), Lookups({}, {}, 0), Control(Polling, NoUser, NoRelease), Errors(false, None, 0))

  const START := Control(Polling, NoUser, NoRelease)

  // -------- the queues --------

  function FifoOf(w: World, q: Queue): Fifo {
    if q.Tick? then w.tick else w.other
  }

  function WithFifo(w: World, q: Queue, f: Fifo): World {
    if q.Tick? then w.(tick := f) else w.(other := f)
  }

  // rb_ary_push, and uv_idle_start unless active or uv_async_send.
  function Push(f: Fifo, p: Proc): Fifo {
    f.(procs := f.procs + [p], wake := Some(true), accepted := f.accepted + [p])
  }

  function Woken(f: Fifo): Fifo {
    f.(wake := Some(false))
  }

  function Taken(f: Fifo): Fifo {
    f.(procs := [])
  }

  // next_tick and call_from_other_thread, after AE_CHECK_STATUS.
  function Accept(w: World, q: Queue, p: Proc): World {
    if w.engine.status.Running? then WithFifo(w, q, Push(FifoOf(w, q), p)) else w
  }

  predicate OnLoopThread(w: World, t: Tid) {
    w.engine.thread == Some(t)
  }

  // -------- AE.run --------

  function RunCalled(w: World, t: Tid, p: Proc): World {
    if w.engine.status.Running? then Accept(w, if OnLoopThread(w, t) then Tick else Other, p)
    else if w.engine.mutex == Some(t) then w    // rb_mutex_lock raises ThreadError
    else w.(engine := w.engine.(waiting := w.engine.waiting[t := p]))
  }

  // The queue a run starts with: whatever its array holds, and a handle just initialised.
  function Loaded(f: Fifo): Fifo {
    Fifo(f.procs, Some(false), [], [])
  }

  // rb_mutex_lock has returned in thread t. What follows runs up to uv_run.
  function Locked(w: World, t: Tid, p: Proc): World {
    var waiting := w.engine.waiting - {t};
    if !w.engine.status.Stopped? then
      w.(engine := w.engine.(waiting := waiting))
    else
      w.(engine := Engine(Running, Some(t), Some(t), waiting),
         tick := Push(Loaded(w.tick), p), other := Loaded(w.other), ubf := Some(false),
         control := START, errors := w.errors.(times := 0))
  }

  // uv_run has returned.
  function Exited(w: World): World {
    w.(engine := w.engine.(status := Stopped, mutex := None, thread := None),
       errors := w.errors.(exit := None))
  }

  // -------- releasing --------

  // ae_release_loop, up to the iteration over @_handles.
  function BeginRelease(w: World): World {
    if !w.engine.status.Running? then w
    else
      w.(engine := w.engine.(status := Releasing), tick := Taken(w.tick), other := Taken(w.other),
         control := w.control.(release := Traversing({}, false)))
  }

  predicate IsStored(hs: Handles, k: Key) {
    match k
    case SockKey(i) => i < |hs.socks| && hs.socks[i].stored
    case TimerKey(i) => i < |hs.timers| && hs.timers[i].stored
  }

  // destroy_handle.
  function Destroyed(w: World, visited: set<Key>, k: Key): World
    requires IsStored(w.handles, k)
  {
    match k
    case SockKey(i) =>
      var s := w.handles.socks[i];
      w.(handles := WithSock(w.handles, i, TcpSpec.Apply(s, TcpSpec.DoDestroy)),
         control := w.control.(release := Traversing(visited + {k}, TcpSpec.Made(s, TcpSpec.DoDestroy).Some?)))
    case TimerKey(i) =>
      w.(handles := WithTimer(w.handles, i, TimerSpec.Apply(w.handles.timers[i], TimerSpec.DoDestroy)),
         control := w.control.(release := Traversing(visited + {k}, false)))
  }

  // The rest of ae_release_loop: the three internal handles are closed, @_procs is cleared.
  function Unloaded(w: World): World {
    w.(tick := w.tick.(wake := None), other := w.other.(wake := None), ubf := None,
       handles := w.handles.(orphans := w.handles.orphans + 3),
       lookups := w.lookups.(procs := {}),
       control := w.control.(release := NoRelease))
  }

  // -------- errors --------

  // @_exit_error is set.
  function WithExitError(w: World, error: Error): World {
    w.(errors := w.errors.(exit := Some(error), times := w.errors.times + 1),
       control := w.control.(user := NoUser))
  }

  function ExitWith(w: World, error: Error): World {
    BeginRelease(WithExitError(w, error))
  }

  // What ae_handle_error stores for an error that goes to no handler.
  function Unhandled(error: Error): Error {
    if error.Killed? then Interrupt else error
  }

  // ae_run_with_error_handler and ae_handle_error, for the code that runs now.
  function Raised(w: World, error: Error): World {
    if w.control.release.Traversing? then Returned(w)
    else if w.control.user.Handling? then ExitWith(w, error)
    else if w.engine.status.Releasing? then Returned(w)
    else if w.errors.handler && error.StandardError? then w.(control := w.control.(user := Handling))
    else ExitWith(w, Unhandled(error))
  }

  function Returned(w: World): World {
    if w.control.release.Traversing? then
      w.(control := w.control.(release := w.control.release.(calling := false)))
    else
      w.(control := w.control.(user := NoUser))
  }

  // -------- handles --------

  function WithSock(hs: Handles, i: nat, s: TcpSpec.Sock): Handles
    requires i < |hs.socks|
  {
    hs.(socks := hs.socks[i := s])
  }

  function WithTimer(hs: Handles, i: nat, t: TimerSpec.Timer): Handles
    requires i < |hs.timers|
  {
    hs.(timers := hs.timers[i := t])
  }

  function Entered(c: Control, ruby: bool): Control {
    if ruby then c.(user := Guarded) else c
  }

  // A libuv event or a call on one socket or timer; `ruby` is whether a callback is entered.
  function SockStepped(w: World, i: nat, e: TcpSpec.Event, ruby: bool): World
    requires i < |w.handles.socks|
  {
    w.(handles := WithSock(w.handles, i, TcpSpec.Apply(w.handles.socks[i], e)), control := Entered(w.control, ruby))
  }

  function TimerStepped(w: World, i: nat, e: TimerSpec.Event, ruby: bool): World
    requires i < |w.handles.timers|
  {
    w.(handles := WithTimer(w.handles, i, TimerSpec.Apply(w.handles.timers[i], e)),
       control := Entered(w.control, ruby))
  }

  function OrphanClosed(w: World): World
    requires w.handles.orphans > 0
  {
    w.(handles := w.handles.(orphans := w.handles.orphans - 1))
  }

  // _ae_getaddrinfo_callback: the proc is removed, and called unless AE is releasing.
  function LookupFinished(w: World, id: nat): World {
    w.(lookups := w.lookups.(procs := w.lookups.procs - {id}, pending := w.lookups.pending - {id}),
       control := Entered(w.control, w.engine.status.Running?))
  }

  datatype SockStart = InitFails | ConnectFails | Connects

  function SockMade(w: World, how: SockStart): World {
    if !w.engine.status.Running? || how.InitFails? then w
    else if how.ConnectFails? then w.(handles := w.handles.(orphans := w.handles.orphans + 1))
    else w.(handles := w.handles.(socks := w.handles.socks + [TcpSpec.CREATED]))
  }

  datatype TimerStart = TimerInitFails | StartFails | Starts

  function OneShot(delay: int, how: TimerStart): Option<TimerSpec.Timer> {
    if how.TimerInitFails? then None else Some(TimerSpec.New(delay, how.Starts?))
  }

  function Periodic(interval: int, first: Option<int>, how: TimerStart): Option<TimerSpec.Timer> {
    if how.TimerInitFails? then None else Some(TimerSpec.NewPeriodic(interval, first, how.Starts?))
  }

  function TimerMade(w: World, t: Option<TimerSpec.Timer>): World {
    if !w.engine.status.Running? || t.None? then w
    else w.(handles := w.handles.(timers := w.handles.timers + [t.value]))
  }

  function Resolved(w: World, ok: bool): World {
    if !w.engine.status.Running? || !ok then w
    else
      var id := w.lookups.lastId + 1;
      w.(lookups := Lookups(w.lookups.procs + {id}, w.lookups.pending + {id}, id))
  }

  // -------- the loop --------

  // _uv_idle_callback and _uv_async_callback, up to taking the GVL.
  function Awoken(w: World, q: Queue): World {
    WithFifo(w, q, Woken(FifoOf(w, q))).(control := w.control.(main := Entering(q)))
  }

  function UbfFired(w: World): World {
    w.(ubf := Some(false), control := Entered(w.control, w.engine.status.Running?))
  }

  function ProcsTaken(w: World, q: Queue): World {
    WithFifo(w, q, Taken(FifoOf(w, q))).(control := w.control.(main := InBatch(q, FifoOf(w, q).procs)))
  }

  function BatchEnded(w: World): World {
    w.(control := w.control.(main := Polling))
  }

  function ProcEntered(w: World, q: Queue, rest: seq<Proc>): World
    requires rest != []
  {
    var f := FifoOf(w, q);
    WithFifo(w, q, f.(started := f.started + [rest[0]]))
    .(control := w.control.(main := InBatch(q, rest[1..]), user := Guarded))
  }

  function ProcStarted(w: World, q: Queue, rest: seq<Proc>): World
    requires rest != []
  {
    var w1 := ProcEntered(w, q, rest);
    if rest[0].ReleaseProc? then BeginRelease(w1) else w1
  }

  datatype Event =
    // any thread
    | RunCall(t: Tid, p: Proc)
    | Lock(t: Tid)
    | StopCall(t: Tid)
    | OtherCall(t: Tid, p: Proc)
    | SetHandler(on: bool)
    | UbfSend
    // the program, on the loop thread
    | TickCall(p: Proc)
    | SockNew(how: SockStart)
    | SockCall(i: nat, sockCall: TcpSpec.Event)
    | TimerNew(delay: int, oneShotHow: TimerStart)
    | PeriodicNew(interval: int, first: Option<int>, periodicHow: TimerStart)
    | TimerCall(i: nat, timerCall: TimerSpec.Event)
    | ResolveCall(ok: bool)
    | Return
    | Raise(error: Error)
    // libuv
    | SockUv(i: nat, sockEvent: TcpSpec.Event)
    | TimerUv(i: nat, timerEvent: TimerSpec.Event)
    | OrphanCloses
    | LookupDone(id: nat)
    | WakeFires(q: Queue)
    | UbfFires
    | LoopExits
    // the C code, going on
    | TakeProcs
    | StartProc
    | EndBatch
    | DestroyNext(k: Key)
    | EndTraversal

  // Code of the program is running on the loop thread.
  predicate UserRuns(w: World) {
    if w.control.release.Traversing? then w.control.release.calling else !w.control.user.NoUser?
  }

  predicate InUvRun(w: World) {
    !w.engine.status.Stopped? && w.control.user.NoUser? && w.control.release.NoRelease?
  }

  // libuv can deliver an event.
  predicate IsPolling(w: World) {
    InUvRun(w) && w.control.main.Polling?
  }

  predicate CanCall(w: World, t: Tid) {
    t !in w.engine.waiting && (OnLoopThread(w, t) ==> UserRuns(w))
  }

  predicate SockIsInactive(s: TcpSpec.Sock) {
    && TcpSpec.NoRequests(s) && !s.uv.reading && (s.uv.closes > 0 ==> s.uv.closed)
    && s.timers.closing == 0 && s.timers.made == s.timers.closes
  }

  predicate TimerIsInactive(t: TimerSpec.Timer) {
    !t.uv.active && (t.uv.closes > 0 ==> t.uv.closed)
  }

  // No active handle or request, and no handle closing: uv_run returns. An async handle is
  // active from uv_async_init to uv_close.
  predicate NothingActive(w: World) {
    && w.tick.wake != Some(true) && w.other.wake.None? && w.ubf.None?
    && w.handles.orphans == 0 && w.lookups.pending == {}
    && (forall i | 0 <= i < |w.handles.socks| :: SockIsInactive(w.handles.socks[i]))
    && (forall i | 0 <= i < |w.handles.timers| :: TimerIsInactive(w.handles.timers[i]))
  }

  predicate Enabled(w: World, e: Event) {
    match e
    case RunCall(t, _) => CanCall(w, t)
    case Lock(t) => t in w.engine.waiting && w.engine.mutex.None?
    case StopCall(t) => CanCall(w, t)
    case OtherCall(t, _) => CanCall(w, t)
    case SetHandler(_) => true
    case UbfSend => true
    case TickCall(_) => UserRuns(w)
    case SockNew(_) => UserRuns(w)
    case SockCall(i, call) =>
      UserRuns(w) && i < |w.handles.socks| && !TcpSpec.IsUv(call) && !call.DoDestroy?
    case TimerNew(_, _) => UserRuns(w)
    case PeriodicNew(_, _, _) => UserRuns(w)
    case TimerCall(i, call) =>
      && UserRuns(w) && i < |w.handles.timers| && !TimerSpec.IsUv(call)
      && TimerSpec.Enabled(w.handles.timers[i], call)
    case ResolveCall(_) => UserRuns(w)
    case Return => UserRuns(w)
    case Raise(_) => UserRuns(w)
    case SockUv(i, event) =>
      && IsPolling(w) && i < |w.handles.socks| && TcpSpec.IsUv(event)
      && TcpSpec.Enabled(w.handles.socks[i], event)
    case TimerUv(i, event) =>
      && IsPolling(w) && i < |w.handles.timers| && TimerSpec.IsUv(event)
      && TimerSpec.Enabled(w.handles.timers[i], event)
    case OrphanCloses => IsPolling(w) && w.handles.orphans > 0
    case LookupDone(id) => IsPolling(w) && id in w.lookups.pending
    case WakeFires(q) => IsPolling(w) && FifoOf(w, q).wake == Some(true)
    case UbfFires => IsPolling(w) && w.ubf == Some(true)
    case LoopExits => IsPolling(w) && NothingActive(w)
    case TakeProcs => InUvRun(w) && w.control.main.Entering?
    case StartProc =>
      InUvRun(w) && w.control.main.InBatch? && w.control.main.rest != [] && w.engine.status.Running?
    case EndBatch =>
      InUvRun(w) && w.control.main.InBatch? && (w.control.main.rest == [] || !w.engine.status.Running?)
    case DestroyNext(k) =>
      && w.control.release.Traversing? && !w.control.release.calling
      && IsStored(w.handles, k) && k !in w.control.release.visited
    case EndTraversal =>
      && w.control.release.Traversing? && !w.control.release.calling
      && AllVisited(w.handles, w.control.release.visited)
  }

  predicate AllVisited(hs: Handles, visited: set<Key>) {
    && (forall i | 0 <= i < |hs.socks| && hs.socks[i].stored :: SockKey(i) in visited)
    && (forall i | 0 <= i < |hs.timers| && hs.timers[i].stored :: TimerKey(i) in visited)
  }

  function Apply(w: World, e: Event): World
    requires Enabled(w, e)
  {
    match e
    case RunCall(t, p) => RunCalled(w, t, p)
    case Lock(t) => Locked(w, t, w.engine.waiting[t])
    case StopCall(t) => Accept(w, if OnLoopThread(w, t) then Tick else Other, ReleaseProc)
    case OtherCall(_, p) => Accept(w, Other, p)
    case SetHandler(on) => w.(errors := w.errors.(handler := on))
    case UbfSend => if w.engine.status.Running? then w.(ubf := Some(true)) else w
    case TickCall(p) => Accept(w, Tick, p)
    case SockNew(how) => SockMade(w, how)
    case SockCall(i, call) => SockStepped(w, i, call, false)
    case TimerNew(delay, how) => TimerMade(w, OneShot(delay, how))
    case PeriodicNew(interval, first, how) => TimerMade(w, Periodic(interval, first, how))
    case TimerCall(i, call) => TimerStepped(w, i, call, false)
    case ResolveCall(ok) => Resolved(w, ok)
    case Return => Returned(w)
    case Raise(error) => Raised(w, error)
    case SockUv(i, event) => SockStepped(w, i, event, TcpSpec.EntersRuby(w.handles.socks[i], event))
    case TimerUv(i, event) => TimerStepped(w, i, event, event.UvFires?)
    case OrphanCloses => OrphanClosed(w)
    case LookupDone(id) => LookupFinished(w, id)
    case WakeFires(q) => Awoken(w, q)
    case UbfFires => UbfFired(w)
    case LoopExits => Exited(w)
    case TakeProcs => ProcsTaken(w, w.control.main.q)
    case StartProc => ProcStarted(w, w.control.main.q, w.control.main.rest)
    case EndBatch => BatchEnded(w)
    case DestroyNext(k) => Destroyed(w, w.control.release.visited, k)
    case EndTraversal => Unloaded(w)
  }

  // -------- what every step keeps --------

  // AE_mutex is held exactly while a loop exists, by the thread recorded for it.
  predicate EngineFits(g: Engine) {
    && (g.status.Stopped? <==> g.mutex.None?)
    && g.thread == g.mutex
    && (g.mutex.Some? ==> g.mutex.value !in g.waiting)
  }

  predicate ControlFits(status: AeStatus, c: Control) {
    && (status.Stopped? ==> c == START)
    && (c.release.Traversing? ==> status.Releasing?)
    && (c.user.Handling? ==> status.Running?)
    && (c.main.Entering? ==> c.user.NoUser? && status.Running?)
  }

  // The internal uv handles exist: from the start of a run to the end of its release.
  predicate HandlesLoaded(status: AeStatus, c: Control) {
    status.Running? || c.release.Traversing?
  }

  // The procs of the queue that the current batch has still to start.
  function BatchRest(c: Control, q: Queue): seq<Proc> {
    if c.main.InBatch? && c.main.q == q then c.main.rest else []
  }

  predicate FifoFits(status: AeStatus, c: Control, q: Queue, f: Fifo) {
    && (f.wake.Some? <==> HandlesLoaded(status, c))
    && (!status.Running? ==> f.procs == [])
    // no lost wake-up
    && (f.procs != [] ==> f.wake == Some(true) || c.main == Entering(q))
    // procs start in the order they were accepted, none is lost and none is run twice
    && (status.Running? ==> f.accepted == f.started + BatchRest(c, q) + f.procs)
    && f.started <= f.accepted
  }

  predicate IsClosed(hs: Handles, k: Key) {
    match k
    case SockKey(i) => i < |hs.socks| && !hs.socks[i].open
    case TimerKey(i) => i < |hs.timers| && !hs.timers[i].open
  }

  predicate EachFits(hs: Handles) {
    && (forall i | 0 <= i < |hs.socks| :: TcpSpec.Inv(hs.socks[i]))
    && (forall i | 0 <= i < |hs.timers| :: TimerSpec.Inv(hs.timers[i]))
  }

  predicate AllClosed(hs: Handles) {
    && (forall i | 0 <= i < |hs.socks| :: !hs.socks[i].open)
    && (forall i | 0 <= i < |hs.timers| :: !hs.timers[i].open)
  }

  // Nothing is left of any handle or request in libuv.
  predicate IsQuiet(hs: Handles) {
    && hs.orphans == 0
    && (forall i | 0 <= i < |hs.socks| :: SockIsInactive(hs.socks[i]))
    && (forall i | 0 <= i < |hs.timers| :: TimerIsInactive(hs.timers[i]))
  }

  predicate HandlesFit(status: AeStatus, c: Control, hs: Handles) {
    && EachFits(hs)
    && (c.release.Traversing? ==> forall k | k in c.release.visited :: IsClosed(hs, k))
    && (!HandlesLoaded(status, c) ==> AllClosed(hs))
    && (status.Stopped? ==> IsQuiet(hs))
  }

  predicate LookupsFit(status: AeStatus, c: Control, l: Lookups) {
    && (forall id | id in l.pending :: id <= l.lastId)
    && l.procs == (if HandlesLoaded(status, c) then l.pending else {})
    && (status.Stopped? ==> l.pending == {})
  }

  predicate ErrorsFit(status: AeStatus, r: Errors) {
    && (r.exit.Some? ==> status.Releasing?)
    && (!status.Stopped? ==> r.times == (if r.exit.Some? then 1 else 0))
  }

  predicate Inv(w: World) {
    && EngineFits(w.engine)
    && ControlFits(w.engine.status, w.control)
    && FifoFits(w.engine.status, w.control, Tick, w.tick)
    && FifoFits(w.engine.status, w.control, Other, w.other)
    && (w.ubf.Some? <==> HandlesLoaded(w.engine.status, w.control))
    && HandlesFit(w.engine.status, w.control, w.handles)
    && LookupsFit(w.engine.status, w.control, w.lookups)
    && ErrorsFit(w.engine.status, w.errors)
  }

  lemma InitialFits()
    ensures Inv(INITIAL)
  {
  }
}
