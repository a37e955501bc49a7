/**
  asyncengine_ruby.c, ae_next_tick.c, ae_call_from_other_thread.c and ae_handle_common.c as
  they are written: fields updated step by step, a loop over each batch of procs and over the
  handle table, and the program's code called in the middle of both.

  The program, the other threads and libuv are a script: any list of events. Wherever C code
  calls into Ruby, the script says which calls are made before it returns or raises. Each
  method is proved to take only steps of ReactorSpec, which it records in `log`, so that all
  that holds in every run of the state machine holds of this code under every script.
 */
module Reactor {
  import opened Wrappers
  import TcpSpec
  import TimerSpec
  import opened ReactorSpec
  import opened ReactorInv
  import opened ReactorRuns

  // The function that ae_run_with_error_handler protects.
  datatype Code = ProcCall(p: Proc) | HandleDestroy(k: Key) | RubyCallback

  // UvFailed is the error raised when libuv refuses, NotRunning the one AE_CHECK_STATUS raises.
  datatype Ret = True | False | Nil | UvFailed | NotRunning | ThreadError | ForkedError

  // A call that AE_CHECK_STATUS guards answers false exactly while the engine releases, and
  // raises its error exactly when the engine is stopped.
  ghost predicate IsChecked(status: AeStatus, ret: Ret) {
    (ret.False? <==> status.Releasing?) && (ret.NotRunning? <==> status.Stopped?)
  }

  // -------- what a script says --------

  // Up to its first Return or Raise, or its end, a script is what one piece of the program's
  // code does: the error it raises, if any, ...
  function ErrorOf(script: seq<Event>): Option<Error> {
    if script == [] || script[0].Return? then None
    else if script[0].Raise? then Some(script[0].error)
    else ErrorOf(script[1..])
  }

  // ... what is left of the script, ...
  function AfterCode(script: seq<Event>): (rest: seq<Event>)
    ensures |rest| <= |script|
  {
    if script == [] then [] else if script[0].Return? || script[0].Raise? then script[1..] else AfterCode(script[1..])
  }

  // ... and the state after the calls that can be made.
  function CodeDone(w: World, script: seq<Event>): World
    decreases |script|
  {
    if script == [] || script[0].Return? || script[0].Raise? then w
    else CodeDone(if IsCall(script[0]) && Enabled(w, script[0]) then Apply(w, script[0]) else w, script[1..])
  }

  // The step that ends the code.
  function Ending(script: seq<Event>): Event {
    if ErrorOf(script).Some? then Raise(ErrorOf(script).value) else Return
  }

  // From there on the log has calls and then this step.
  ghost predicate NextStepIs(log: seq<Event>, from: nat, e: Event) {
    exists n :: from <= n < |log| && log[n] == e && forall i | from <= i < n :: IsCall(log[i])
  }

  lemma NextStepNow(a: seq<Event>, b: seq<Event>, from: nat, e: Event)
    requires from <= |a| && forall i | from <= i < |a| :: IsCall(a[i])
    requires a + [e] <= b
    ensures NextStepIs(b, from, e)
  {
    var n := |a|;
    assert b[n] == e && forall i | from <= i < n :: b[i] == a[i];
  }

  // -------- the handle table as a list --------

  predicate IsUnique<T(==)>(s: seq<T>) {
    forall i, j | 0 <= i < j < |s| :: s[i] != s[j]
  }

  lemma EmptyHasNone<T>(s: seq<T>)
    ensures s == [] <==> forall x :: x !in s
  {
    if s != [] {
      assert s[0] in s;
    }
  }

  lemma TakeOneMore<T>(started: seq<T>, procs: seq<T>, i: nat)
    requires i < |procs|
    ensures procs[i..] != [] && procs[i..][0] == procs[i] && procs[i..][1..] == procs[i + 1..]
    ensures started + procs[..i] + [procs[i]] == started + procs[..i + 1]
  {
  }

  function Without<T(==)>(s: seq<T>, x: T): seq<T> {
    if s == [] then [] else if s[0] == x then Without(s[1..], x) else [s[0]] + Without(s[1..], x)
  }

  lemma {:induction false} WithoutHas<T>(s: seq<T>, x: T)
    ensures forall y :: y in Without(s, x) <==> y in s && y != x
  {
    if s != [] {
      WithoutHas(s[1..], x);
      assert forall y :: y in s <==> y == s[0] || y in s[1..];
    }
  }

  lemma {:induction false} WithoutIsUnique<T>(s: seq<T>, x: T)
    requires IsUnique(s)
    ensures IsUnique(Without(s, x))
  {
    if s != [] {
      WithoutIsUnique(s[1..], x);
      WithoutHas(s[1..], x);
      assert s[0] !in s[1..];
    }
  }

  // What the program's code cannot change while it runs: where the C code is, the status,
  // the procs started; and when releasing it stores no handle.
  ghost predicate CodeKept(w: World, w': World) {
    && w'.control == w.control
    && w'.engine.status == w.engine.status && w'.engine.thread == w.engine.thread
    && w'.tick.started == w.tick.started && w'.other.started == w.other.started
    && w'.errors.exit == w.errors.exit
    && (w.engine.status.Running? || forall k | IsStored(w'.handles, k) :: IsStored(w.handles, k))
  }

  lemma CallKeepsCode(w: World, e: Event)
    requires Inv(w) && Enabled(w, e) && IsCall(e)
    ensures CodeKept(w, Apply(w, e))
  {
    hide Inv, Enabled, Apply, IsStored;
    CallsLeaveTheCode(w, e);
    if !w.engine.status.Running? {
      forall k | IsStored(Apply(w, e).handles, k)
        ensures IsStored(w.handles, k)
      {
        CallsStoreNothing(w, e, k);
      }
    }
  }

  lemma CodeKeptOn(a: World, b: World, c: World)
    requires CodeKept(a, b) && CodeKept(b, c)
    ensures CodeKept(a, c)
  {
  }

  // The code's own work is done, and the program's code, if any ran, is over or has raised.
  ghost predicate IsOver(code: Code, w: World, w': World) {
    match code
    case ProcCall(p) =>
      && w.control.main.InBatch? && w.control.main.rest != []
      && w'.control == Control(InBatch(w.control.main.q, w.control.main.rest[1..]), Guarded, NoRelease)
      && !w'.engine.status.Stopped?
      && (w'.engine.status.Running? ==>
            && w'.tick.started == w.tick.started + (if w.control.main.q.Tick? then [p] else [])
            && w'.other.started == w.other.started + (if w.control.main.q.Tick? then [] else [p]))
    case HandleDestroy(k) =>
      && w.control.release.Traversing? && w'.control.release.Traversing?
      && w'.engine.status.Releasing?
      && w'.control.release.visited == w.control.release.visited + {k}
      && w'.control == w.control.(release := w'.control.release)
      && (forall x | IsStored(w'.handles, x) :: IsStored(w.handles, x))
    case RubyCallback =>
      && w'.control == w.control && w'.engine.status == w.engine.status
  }

  // As above, after ae_run_with_error_handler: control is back in the C code.
  ghost predicate Ran(code: Code, w: World, w': World) {
    match code
    case ProcCall(p) =>
      && w.control.main.InBatch? && w.control.main.rest != []
      && InUvRun(w') && w'.control.main == InBatch(w.control.main.q, w.control.main.rest[1..])
      && (w'.engine.status.Running? ==>
            && w'.tick.started == w.tick.started + (if w.control.main.q.Tick? then [p] else [])
            && w'.other.started == w.other.started + (if w.control.main.q.Tick? then [] else [p]))
    case HandleDestroy(k) =>
      && w.control.release.Traversing?
      && w'.engine.status.Releasing?
      && w'.control == w.control.(release := Traversing(w.control.release.visited + {k}, false))
      && (forall x | IsStored(w'.handles, x) :: IsStored(w.handles, x))
    case RubyCallback =>
      && InUvRun(w') && w'.control.main == w.control.main
  }

  // What ae_run_with_error_handler does after the code: the step that ends it, and what an
  // error brings about.
  ghost predicate Settled(w: World, w': World) {
    if w.control.release.Traversing? then w' == Returned(w)
    else
      && InUvRun(w') && w'.control.main == w.control.main
      && (w'.engine.status.Running? ==>
            w.engine.status.Running? && w'.tick.started == w.tick.started && w'.other.started == w.other.started)
  }

  lemma OverAndSettled(code: Code, w: World, w1: World, w2: World)
    requires IsOver(code, w, w1) && Settled(w1, w2)
    requires code.RubyCallback? ==> w.control.release.NoRelease?
    ensures Ran(code, w, w2)
  {
  }

  lemma RubyAfter(code: Code, w: World, w': World)
    requires IsOver(code, w, w')
    requires code.RubyCallback? ==> w.control.user.Guarded? && w.control.release.NoRelease?
    ensures w'.control.release.NoRelease? ==> w'.control.user.Guarded?
    ensures !UserRuns(w') ==> Ran(code, w, w') && code.HandleDestroy?
  {
  }

  // What ae_run_with_error_handler may be called with.
  ghost predicate CanRun(code: Code, w: World) {
    match code
    case ProcCall(p) => Enabled(w, StartProc) && w.control.main.rest[0] == p
    case HandleDestroy(k) => Enabled(w, DestroyNext(k))
    case RubyCallback => w.control.user.Guarded? && w.control.release.NoRelease?
  }

  lemma CanRunMeans(code: Code, w: World)
    requires CanRun(code, w)
    ensures code.ProcCall? ==> w.engine.status.Running?
    ensures code.RubyCallback? ==> w.control.user.Guarded? && w.control.release.NoRelease?
  {
  }

  // Whether `destroy` will call the program.
  predicate WillCall(code: Code, hs: Handles) {
    code.HandleDestroy? && code.k.SockKey? && code.k.i < |hs.socks|
    && TcpSpec.Made(hs.socks[code.k.i], TcpSpec.DoDestroy).Some?
  }

  // Whether the program's code will run.
  predicate RunsRuby(code: Code, hs: Handles) {
    code.RubyCallback? || (code.ProcCall? && code.p.UserProc?) || WillCall(code, hs)
  }

  // The log of a piece of code: its own first step, if it has one, then the calls of the
  // program's code, if it runs any, and the step that ends that code.
  ghost predicate IsLogged(code: Code, script: seq<Event>, before: seq<Event>, after: seq<Event>, runs: bool) {
    before + EntryOf(code) <= after && (runs ==> NextStepIs(after, |before + EntryOf(code)|, Ending(script)))
  }

  // The same before the step that ends the code.
  ghost predicate IsProtected(code: Code, script: seq<Event>, before: seq<Event>, after: seq<Event>,
                              runs: bool, error: Option<Error>) {
    && before + EntryOf(code) <= after
    && error == (if runs then ErrorOf(script) else None)
    && (runs ==> forall i | |before + EntryOf(code)| <= i < |after| :: IsCall(after[i]))
  }

  lemma LoggedWhenEnded(code: Code, script: seq<Event>, before: seq<Event>, protected: seq<Event>, after: seq<Event>,
                        runs: bool, error: Option<Error>)
    requires IsProtected(code, script, before, protected, runs, error)
    requires protected + [if error.Some? then Raise(error.value) else Return] <= after
    ensures before <= after && IsLogged(code, script, before, after, runs)
  {
    hide ErrorOf, EntryOf, NextStepIs;
    var entered := before + EntryOf(code);
    assert entered <= protected <= after;
    if runs {
      NextStepNow(protected, after, |entered|, Ending(script));
    }
  }

  lemma LoggedWithoutRuby(code: Code, script: seq<Event>, before: seq<Event>, after: seq<Event>, error: Option<Error>)
    requires IsProtected(code, script, before, after, false, error)
    ensures before <= after && IsLogged(code, script, before, after, false)
  {
  }

  // -------- the steps taken here, as functions on the state --------

  lemma DestroyIsDue(w: World, k: Key)
    requires w.control.release.Traversing? && !w.control.release.calling
    requires IsStored(w.handles, k) && k !in w.control.release.visited
    ensures Enabled(w, DestroyNext(k))
  {
  }

  lemma UnloadIs(w: World)
    requires Inv(w) && w.control.release.Traversing? && !w.control.release.calling
    requires AllVisited(w.handles, w.control.release.visited)
    ensures Enabled(w, EndTraversal) && Apply(w, EndTraversal) == Unloaded(w) && AllClosed(Unloaded(w).handles)
    ensures w.tick.wake.Some? && w.other.wake.Some? && w.ubf.Some?
  {
    UnloadedKeeps(w);
  }

  lemma AllAreVisited(hs: Handles, visited: set<Key>)
    requires forall k | IsStored(hs, k) :: k in visited
    ensures AllVisited(hs, visited)
  {
    forall i | 0 <= i < |hs.socks| && hs.socks[i].stored
      ensures SockKey(i) in visited
    {
      assert IsStored(hs, SockKey(i));
    }
    forall i | 0 <= i < |hs.timers| && hs.timers[i].stored
      ensures TimerKey(i) in visited
    {
      assert IsStored(hs, TimerKey(i));
    }
  }

  // The step the code itself begins with.
  function EntryOf(code: Code): seq<Event> {
    match code
    case ProcCall(_) => [StartProc]
    case HandleDestroy(k) => [DestroyNext(k)]
    case RubyCallback => []
  }

  lemma EndOfRuby(w: World, e: Event)
    requires Inv(w) && UserRuns(w) && (e.Return? || (e.Raise? && w.engine.status.Releasing?))
    ensures Enabled(w, e) && Apply(w, e) == Returned(w)
  {
  }

  lemma ErrorIsHandled(w: World, error: Error)
    requires w.engine.status.Running? && w.control.user.Guarded? && w.control.release.NoRelease?
    requires w.errors.handler && error.StandardError?
    ensures Enabled(w, Raise(error)) && Apply(w, Raise(error)) == w.(control := w.control.(user := Handling))
  {
  }

  lemma ErrorIsFatal(w: World, error: Error)
    requires w.engine.status.Running? && !w.control.user.NoUser? && w.control.release.NoRelease?
    requires w.control.user.Handling? || !w.errors.handler || !error.StandardError?
    ensures Enabled(w, Raise(error))
    ensures Apply(w, Raise(error)) == BeginRelease(WithExitError(w, Stored(w, error)))
  {
  }

  lemma DestroyedStoresLess(w: World, k: Key)
    requires w.control.release.Traversing? && IsStored(w.handles, k)
    ensures var w' := Destroyed(w, w.control.release.visited, k);
      forall x | IsStored(w'.handles, x) :: IsStored(w.handles, x)
  {
    if k.SockKey? {
      TcpSpec.StepFollows(w.handles.socks[k.i], TcpSpec.DoDestroy);
    }
  }

  lemma TraversalIsReleasing(w: World)
    requires Inv(w) && w.control.release.Traversing?
    ensures w.engine.status.Releasing?
  {
  }

  lemma RubyIsNotStopped(w: World)
    requires Inv(w) && UserRuns(w)
    ensures !w.engine.status.Stopped? && (w.control.release.Traversing? ==> w.engine.status.Releasing?)
  {
  }

  lemma BatchIsOver(w: World)
    requires InUvRun(w) && w.control.main.InBatch? && (w.control.main.rest == [] || !w.engine.status.Running?)
    ensures Enabled(w, EndBatch) && Apply(w, EndBatch) == w.(control := w.control.(main := Polling))
  {
  }

  lemma TakeIsRunning(w: World)
    requires Inv(w) && Enabled(w, TakeProcs)
    ensures w.engine.status.Running?
    ensures var f := FifoOf(w, w.control.main.q);
      f.accepted == f.started + f.procs
  {
    var f := FifoOf(w, w.control.main.q);
    assert f.started + [] + f.procs == f.started + f.procs;
  }

  lemma StoppedIsEmpty(w: World, es: seq<Event>)
    requires IsReached(w, es) && Inv(w) && w.engine.status.Stopped?
    ensures forall k :: !IsStored(w.handles, k)
    ensures w.lookups.procs == {} && w.lookups.pending == {} && w.tick.procs == [] && w.other.procs == []
    ensures IsQuiet(w.handles)
  {
    StoppedIsQuiescent(w, es);
  }

  lemma PollingIsNotStopped(w: World)
    requires IsPolling(w)
    ensures !w.engine.status.Stopped?
  {
  }

  lemma HandlesExist(w: World)
    requires Inv(w)
    ensures w.engine.status.Running? ==> w.tick.wake.Some? && w.other.wake.Some?
  {
  }

  class AsyncEngine {
    var engine: Engine
    var tick: Fifo
    var other: Fifo
    var ubf: Option<bool>
    var handles: Handles
    var table: seq<Key>       // AE_handles, in order of insertion
    var lookups: Lookups
    var control: Control      // stands for the C stack
    var errors: Errors
    ghost var log: seq<Event>

    function W(): World
      reads this`engine, this`tick, this`other, this`ubf, this`handles, this`lookups, this`control, this`errors
    {
      World(engine, tick, other, ubf, handles, lookups, control, errors)
    }

    ghost predicate TableFits()
      reads this`handles, this`table
    {
      IsUnique(table) && forall k :: k in table <==> IsStored(handles, k)
    }

    ghost predicate Valid()
      reads this
    {
      IsReached(W(), log) && Inv(W()) && TableFits()
    }

    constructor ()
      ensures Valid() && W() == INITIAL && log == []
    {
      engine, tick, other, ubf := INITIAL.engine, INITIAL.tick, INITIAL.other, INITIAL.ubf;
      handles, table, lookups := INITIAL.handles, [], INITIAL.lookups;
      control, errors, log := INITIAL.control, INITIAL.errors, [];
      new;
      InitialFits();
    }

    // One step of the state machine has been taken, from w.
    ghost method Did(e: Event, w: World)
      requires IsReached(w, log) && Inv(w) && Enabled(w, e) && W() == Apply(w, e) && TableFits()
      modifies this`log
      ensures Valid() && log == old(log) + [e]
    {
      RunOneMore(INITIAL, log, e);
      StepKeeps(w, e);
      log := log + [e];
    }

    // -------- ae_handle_common.c: the handle table --------

    method StoreHandle(k: Key)
      requires IsUnique(table) && k !in table
      modifies this`table
      ensures IsUnique(table) && forall x :: x in table <==> x in old(table) || x == k
    {
      table := table + [k];
    }

    method RemoveHandle(k: Key)
      requires IsUnique(table)
      modifies this`table
      ensures IsUnique(table) && forall x :: x in table <==> x in old(table) && x != k
    {
      WithoutHas(table, k);
      WithoutIsUnique(table, k);
      table := Without(table, k);
    }

    // One step of a socket or a timer, which may remove it from the table.
    method StepSock(i: nat, e: TcpSpec.Event)
      requires i < |handles.socks| && TableFits()
      modifies this`handles, this`table
      ensures handles == WithSock(old(handles), i, TcpSpec.Apply(old(handles).socks[i], e)) && TableFits()
    {
      TcpSpec.StepFollows(handles.socks[i], e);
      hide TcpSpec.Apply;
      handles := handles.(socks := handles.socks[i := TcpSpec.Apply(handles.socks[i], e)]);
      if !handles.socks[i].stored {
        RemoveHandle(SockKey(i));
      }
    }

    method StepTimer(i: nat, e: TimerSpec.Event)
      requires i < |handles.timers| && TableFits()
      modifies this`handles, this`table
      ensures handles == WithTimer(old(handles), i, TimerSpec.Apply(old(handles).timers[i], e)) && TableFits()
    {
      assert TimerSpec.Apply(handles.timers[i], e).stored ==> handles.timers[i].stored;
      hide TimerSpec.Apply;
      handles := handles.(timers := handles.timers[i := TimerSpec.Apply(handles.timers[i], e)]);
      if !handles.timers[i].stored {
        RemoveHandle(TimerKey(i));
      }
    }

    // -------- calls --------

    method NextTick(p: Proc) returns (ret: Ret)
      requires engine.status.Running? ==> tick.wake.Some?
      modifies this`tick
      ensures W() == Accept(old(W()), Tick, p)
      ensures IsChecked(engine.status, ret) && (ret.True? <==> engine.status.Running?)
    {
      if engine.status.Releasing? {
        return False;
      } else if engine.status.Stopped? {
        return NotRunning;
      }
      assert tick.wake.Some?;
      tick := tick.(procs := tick.procs + [p], accepted := tick.accepted + [p]);
      if !tick.wake.value {
        tick := tick.(wake := Some(true));
      }
      return True;
    }

    method CallFromOtherThread(p: Proc) returns (ret: Ret)
      requires engine.status.Running? ==> other.wake.Some?
      modifies this`other
      ensures W() == Accept(old(W()), Other, p)
      ensures IsChecked(engine.status, ret) && (ret.True? <==> engine.status.Running?)
    {
      if engine.status.Releasing? {
        return False;
      } else if engine.status.Stopped? {
        return NotRunning;
      }
      assert other.wake.Some?;
      other := other.(procs := other.procs + [p], accepted := other.accepted + [p]);
      other := other.(wake := Some(true));
      return True;
    }

    // AsyncEngine_run up to rb_mutex_lock: an error in a process forked from the one that
    // runs the engine, true when the proc went to the running loop, nil when the thread now
    // waits for the mutex.
    method Run(t: Tid, p: Proc, forked: bool) returns (ret: Ret)
      requires Valid() && Enabled(W(), RunCall(t, p))
      modifies this
      ensures Valid()
      ensures if engine.status.Running? && forked then W() == old(W()) && log == old(log) && ret == ForkedError
              else W() == RunCalled(old(W()), t, p) && log == old(log) + [RunCall(t, p)] &&
                   ret == if engine.status.Running? then True else if engine.mutex == Some(t) then ThreadError else Nil
    {
      hide IsReached, Inv, Apply, Enabled;
      ghost var w := W();
      RunCallIs(w, t, p);
      HandlesExist(w);
      if engine.status.Running? && forked {
        return ForkedError;
      }
      if engine.status.Running? {
        if engine.thread == Some(t) {
          ret := NextTick(p);
        } else {
          ret := CallFromOtherThread(p);
        }
      } else if engine.mutex == Some(t) {
        ret := ThreadError;
      } else {
        engine := engine.(waiting := engine.waiting[t := p]);
        ret := Nil;
      }
      Did(RunCall(t, p), w);
    }

    // AE.stop.
    method Stop(t: Tid) returns (ret: Ret)
      requires Valid() && Enabled(W(), StopCall(t))
      modifies this
      ensures Valid() && log == old(log) + [StopCall(t)]
      ensures W() == Accept(old(W()), if OnLoopThread(old(W()), t) then Tick else Other, ReleaseProc)
      ensures IsChecked(engine.status, ret) && (ret.True? <==> engine.status.Running?)
    {
      hide IsReached, Inv, Apply, Enabled;
      ghost var w := W();
      StopIs(w, t);
      HandlesExist(w);
      if engine.thread == Some(t) {
        ret := NextTick(ReleaseProc);
      } else {
        ret := CallFromOtherThread(ReleaseProc);
      }
      Did(StopCall(t), w);
    }

    method NewSocket(how: SockStart) returns (ret: Ret)
      requires TableFits()
      modifies this`handles, this`table
      ensures W() == SockMade(old(W()), how) && TableFits()
      ensures IsChecked(engine.status, ret) && (ret.True? <==> engine.status.Running? && how.Connects?)
      ensures ret.UvFailed? <==> engine.status.Running? && !how.Connects?
    {
      if engine.status.Releasing? {
        return False;
      } else if engine.status.Stopped? {
        return NotRunning;
      }
      match how
      case InitFails =>
        ret := UvFailed;
      case ConnectFails =>
        handles := handles.(orphans := handles.orphans + 1);
        ret := UvFailed;
      case Connects =>
        ret := True;
        ghost var hs := handles;
        StoreHandle(SockKey(|handles.socks|));
        handles := handles.(socks := handles.socks + [TcpSpec.CREATED]);
        assert forall k :: IsStored(handles, k) <==> IsStored(hs, k) || k == SockKey(|hs.socks|);
    }

    method NewTimer(t: Option<TimerSpec.Timer>) returns (ret: Ret)
      requires TableFits()
      modifies this`handles, this`table
      ensures W() == TimerMade(old(W()), t) && TableFits()
      ensures IsChecked(engine.status, ret)
      ensures ret.True? <==> engine.status.Running? && t.Some? && t.value.open
      ensures ret.UvFailed? <==> engine.status.Running? && (t.None? || !t.value.open)
    {
      if engine.status.Releasing? {
        return False;
      } else if engine.status.Stopped? {
        return NotRunning;
      } else if t.None? {
        return UvFailed;
      }
      ghost var hs := handles;
      if t.value.stored {
        StoreHandle(TimerKey(|handles.timers|));
      }
      handles := handles.(timers := handles.timers + [t.value]);
      assert forall k :: IsStored(handles, k) <==> IsStored(hs, k) || (t.value.stored && k == TimerKey(|hs.timers|));
      ret := if t.value.open then True else UvFailed;
    }

    // ae_store_proc, once uv_getaddrinfo has succeeded.
    method Resolve(ok: bool) returns (ret: Ret)
      modifies this`lookups
      ensures W() == Resolved(old(W()), ok)
      ensures IsChecked(engine.status, ret) && (ret.True? <==> engine.status.Running? && ok)
      ensures ret.UvFailed? <==> engine.status.Running? && !ok
    {
      if engine.status.Releasing? {
        return False;
      } else if engine.status.Stopped? {
        return NotRunning;
      } else if !ok {
        return UvFailed;
      }
      lookups := lookups.(lastId := lookups.lastId + 1);
      lookups := lookups.(procs := lookups.procs + {lookups.lastId}, pending := lookups.pending + {lookups.lastId});
      return True;
    }

    // A call the script makes.
    method Call(e: Event)
      requires Valid() && IsCall(e) && Enabled(W(), e)
      modifies this
      ensures Valid() && log == old(log) + [e] && W() == Apply(old(W()), e)
    {
      hide IsReached, Inv, Apply, Enabled, Accept, RunCalled;
      if e.RunCall? {
        RunCallIs(W(), e.t, e.p);
        var ret := Run(e.t, e.p, false);
      } else if e.StopCall? {
        StopIs(W(), e.t);
        var ret := Stop(e.t);
      } else if e.OtherCall? || e.SetHandler? || e.UbfSend? || e.TickCall? {
        CallOnQueues(e);
      } else {
        CallOnHandles(e);
      }
    }

    method CallOnQueues(e: Event)
      requires Valid() && Enabled(W(), e) && (e.OtherCall? || e.SetHandler? || e.UbfSend? || e.TickCall?)
      modifies this
      ensures Valid() && log == old(log) + [e] && W() == Apply(old(W()), e)
    {
      hide IsReached, Inv, Accept, CanCall, UserRuns;
      ghost var w := W();
      HandlesExist(w);
      match e {
        case OtherCall(_, p) => var ret := CallFromOtherThread(p);
        case SetHandler(on) => errors := errors.(handler := on);
        case UbfSend =>
          if engine.status.Running? {
            ubf := Some(true);
          }
        case TickCall(p) => var ret := NextTick(p);
      }
      Did(e, w);
    }

    method CallOnHandles(e: Event)
      requires Valid() && Enabled(W(), e)
      requires e.SockNew? || e.SockCall? || e.TimerNew? || e.PeriodicNew? || e.TimerCall? || e.ResolveCall?
      modifies this
      ensures Valid() && log == old(log) + [e] && W() == Apply(old(W()), e)
    {
      hide IsReached, Inv, SockMade, TimerMade, Resolved, WithSock, WithTimer, UserRuns;
      hide TcpSpec.Apply, TimerSpec.Apply, TimerSpec.Enabled, OneShot, Periodic;
      ghost var w := W();
      match e {
        case SockNew(how) => var ret := NewSocket(how);
        case SockCall(i, call) => StepSock(i, call);
        case TimerNew(delay, how) => var ret := NewTimer(OneShot(delay, how));
        case PeriodicNew(interval, first, how) => var ret := NewTimer(Periodic(interval, first, how));
        case TimerCall(i, call) => StepTimer(i, call);
        case ResolveCall(ok) => var ret := Resolve(ok);
      }
      Did(e, w);
    }

    // -------- Ruby code of the program --------

    // What the program's code does until it returns, or raises: the calls of the script that
    // can be made, its own and those of other threads.
    method RunRuby(script: seq<Event>) returns (error: Option<Error>, rest: seq<Event>)
      requires Valid() && UserRuns(W())
      modifies this
      ensures Valid() && old(log) <= log && CodeKept(old(W()), W())
      ensures error == ErrorOf(script) && rest == AfterCode(script) && W() == CodeDone(old(W()), script)
      ensures forall i | |old(log)| <= i < |log| :: IsCall(log[i])
    {
      hide IsReached, Inv, Apply, Enabled, IsStored;
      rest := script;
      while rest != []
        invariant Valid() && old(log) <= log && CodeKept(old(W()), W())
        invariant ErrorOf(rest) == ErrorOf(script) && AfterCode(rest) == AfterCode(script)
        invariant CodeDone(W(), rest) == CodeDone(old(W()), script)
        invariant forall i | |old(log)| <= i < |log| :: IsCall(log[i])
        decreases |rest|
      {
        var e := rest[0];
        rest := rest[1..];
        if e.Return? {
          return None, rest;
        } else if e.Raise? {
          return Some(e.error), rest;
        } else if IsCall(e) && Enabled(W(), e) {
          ghost var w := W();
          Call(e);
          CallKeepsCode(w, e);
          CodeKeptOn(old(W()), w, W());
        }
      }
      error := None;
    }

    // -------- ae_run_with_error_handler, ae_handle_error, ae_release_loop --------

    // The program's code is over, or its error is ignored because the engine is releasing.
    method EndRuby(error: Option<Error>)
      requires Valid() && UserRuns(W()) && (error.Some? ==> engine.status.Releasing?)
      modifies this
      ensures Valid() && W() == Returned(old(W()))
      ensures log == old(log) + [if error.Some? then Raise(error.value) else Return]
    {
      hide IsReached, Inv, Apply, Enabled, UserRuns;
      ghost var w := W();
      ghost var e := if error.Some? then Raise(error.value) else Return;
      EndOfRuby(w, e);
      if control.release.Traversing? {
        control := control.(release := control.release.(calling := false));
      } else {
        control := control.(user := NoUser);
      }
      Did(e, w);
    }

    // The user error handler is entered.
    method EnterHandler(error: Error)
      requires Valid() && engine.status.Running? && control.user.Guarded? && control.release.NoRelease?
      requires errors.handler && error.StandardError?
      modifies this
      ensures Valid() && log == old(log) + [Raise(error)]
      ensures W() == old(W()).(control := old(control).(user := Handling))
    {
      hide IsReached, Inv, Apply, Enabled;
      ghost var w := W();
      ErrorIsHandled(w, error);
      control := control.(user := Handling);
      Did(Raise(error), w);
    }

    // @_exit_error is set; the step ends in ae_release_loop.
    method SetExitError(error: Error)
      modifies this`errors, this`control
      ensures W() == WithExitError(old(W()), error)
    {
      errors := errors.(exit := Some(error), times := errors.times + 1);
      control := control.(user := NoUser);
    }

    // The next proc of the batch is entered; the step ends in it.
    method EnterProc()
      requires control.main.InBatch? && control.main.rest != []
      modifies this`tick, this`other, this`control
      ensures W() == ProcEntered(old(W()), old(control).main.q, old(control).main.rest)
    {
      var (q, rest) := (control.main.q, control.main.rest);
      if q.Tick? {
        tick := tick.(started := tick.started + [rest[0]]);
      } else {
        other := other.(started := other.started + [rest[0]]);
      }
      control := control.(main := InBatch(q, rest[1..]), user := Guarded);
    }

    // call_handle_destroy, up to the callback it makes.
    method DestroyHandle(k: Key)
      requires Valid() && Enabled(W(), DestroyNext(k))
      modifies this
      ensures Valid() && log == old(log) + [DestroyNext(k)]
      ensures W() == Destroyed(old(W()), old(control).release.visited, k)
    {
      hide IsReached, Inv, Apply, Enabled, TcpSpec.Apply, TcpSpec.Made, TimerSpec.Apply;
      ghost var w := W();
      DestroyIs(w, k);
      var visited := control.release.visited + {k};
      match k {
        case SockKey(i) =>
          var calling := TcpSpec.Made(handles.socks[i], TcpSpec.DoDestroy).Some?;
          StepSock(i, TcpSpec.DoDestroy);
          control := control.(release := Traversing(visited, calling));
        case TimerKey(i) =>
          StepTimer(i, TimerSpec.DoDestroy);
          control := control.(release := Traversing(visited, false));
      }
      Did(DestroyNext(k), w);
    }

    // These call each other: an error may begin a release, and a release runs `destroy`
    // under the same handler. A release does not begin twice, which is why this ends.

    method RunWithErrorHandler(code: Code, script: seq<Event>) returns (rest: seq<Event>)
      requires Valid() && CanRun(code, W())
      modifies this
      ensures Valid() && old(log) <= log && |rest| <= |script|
      ensures Ran(code, old(W()), W())
      ensures IsLogged(code, script, old(log), log, old(RunsRuby(code, handles)))
      decreases if engine.status.Running? then 1 else 0, 7
    {
      hide IsReached, Inv, Apply, Enabled, IsStored, UserRuns, CanRun, IsOver, Ran, Settled, IsLogged, IsProtected;
      hide RunsRuby, EntryOf;
      CanRunMeans(code, W());
      var error: Option<Error>;
      error, rest := Protect(code, script);
      ghost var (protected, w) := (log, W());
      RubyAfter(code, old(W()), w);
      if UserRuns(W()) {
        rest := Settle(error, rest);
        OverAndSettled(code, old(W()), w, W());
        LoggedWhenEnded(code, script, old(log), protected, log, old(RunsRuby(code, handles)), error);
      } else {
        LoggedWithoutRuby(code, script, old(log), log, error);
      }
    }

    // rb_protect: the code runs, and its error is caught.
    method Protect(code: Code, script: seq<Event>) returns (error: Option<Error>, rest: seq<Event>)
      requires Valid() && CanRun(code, W())
      modifies this
      ensures Valid() && |rest| <= |script| && IsOver(code, old(W()), W())
      ensures IsProtected(code, script, old(log), log, old(RunsRuby(code, handles)), error)
      ensures old(RunsRuby(code, handles)) ==> UserRuns(W())
      ensures engine.status.Running? ==> old(engine.status).Running?
      decreases if engine.status.Running? then 1 else 0, 6
    {
      hide IsReached, Inv, Apply, Enabled, IsStored, UserRuns, IsOver;
      match code
      case ProcCall(_) => error, rest := ProtectProc(code, script);
      case HandleDestroy(_) => error, rest := ProtectDestroy(code, script);
      case RubyCallback => error, rest := ProtectCallback(code, script);
    }

    method ProtectCallback(code: Code, script: seq<Event>) returns (error: Option<Error>, rest: seq<Event>)
      requires Valid() && code.RubyCallback? && CanRun(code, W())
      modifies this
      ensures Valid() && |rest| <= |script| && IsOver(code, old(W()), W()) && UserRuns(W())
      ensures IsProtected(code, script, old(log), log, true, error)
      ensures engine.status == old(engine.status)
    {
      hide IsReached, Inv, Apply, Enabled, IsStored, ErrorOf;
      error, rest := RunRuby(script);
    }

    method ProtectProc(code: Code, script: seq<Event>) returns (error: Option<Error>, rest: seq<Event>)
      requires Valid() && code.ProcCall? && CanRun(code, W())
      modifies this
      ensures Valid() && |rest| <= |script| && IsOver(code, old(W()), W()) && UserRuns(W())
      ensures IsProtected(code, script, old(log), log, code.p.UserProc?, error)
      ensures old(engine.status).Running?
      decreases if engine.status.Running? then 1 else 0, 5
    {
      hide IsReached, Inv, Apply, Enabled, IsStored, ErrorOf;
      ghost var w := W();
      StartIs(w);
      EnterProc();
      if code.p.ReleaseProc? {
        rest := ReleaseLoop(script, StartProc, w);
        error := None;
      } else {
        Did(StartProc, w);
        error, rest := RunRuby(script);
      }
    }

    method ProtectDestroy(code: Code, script: seq<Event>) returns (error: Option<Error>, rest: seq<Event>)
      requires Valid() && code.HandleDestroy? && CanRun(code, W())
      modifies this
      ensures Valid() && |rest| <= |script| && IsOver(code, old(W()), W())
      ensures UserRuns(W()) <==> old(WillCall(code, handles))
      ensures IsProtected(code, script, old(log), log, old(WillCall(code, handles)), error)
      ensures engine.status.Releasing?
    {
      hide IsReached, Inv, Apply, Enabled, IsStored, ErrorOf, TcpSpec.Made, TcpSpec.Apply, TimerSpec.Apply;
      ghost var w := W();
      DestroyIs(w, code.k);
      DestroyedStoresLess(w, code.k);
      DestroyHandle(code.k);
      TraversalIsReleasing(w);
      if control.release.calling {
        error, rest := RunRuby(script);
      } else {
        error, rest := None, script;
      }
    }

    // The rest of ae_run_with_error_handler.
    method Settle(error: Option<Error>, script: seq<Event>) returns (rest: seq<Event>)
      requires Valid() && UserRuns(W()) && (control.release.NoRelease? ==> control.user.Guarded?)
      modifies this
      ensures Valid() && |rest| <= |script|
      ensures old(log) + [if error.Some? then Raise(error.value) else Return] <= log
      ensures Settled(old(W()), W())
      decreases if engine.status.Running? then 1 else 0, 6
    {
      hide IsReached, Inv, Apply, Enabled, IsStored;
      RubyIsNotStopped(W());
      rest := script;
      if error.Some? {
        if engine.status.Releasing? {
          EndRuby(error);
        } else {
          rest := HandleError(error.value, rest);
        }
      } else {
        EndRuby(None);
      }
    }

    method HandleError(error: Error, script: seq<Event>) returns (rest: seq<Event>)
      requires Valid() && engine.status.Running? && control.user.Guarded? && control.release.NoRelease?
      modifies this
      ensures Valid() && old(log) + [Raise(error)] <= log && |rest| <= |script|
      ensures InUvRun(W()) && control.main == old(control.main)
      ensures engine.status.Running? ==> tick.started == old(tick.started) && other.started == old(other.started)
      ensures old(errors.handler) && error.StandardError? ==> NextStepIs(log, |old(log)| + 1, Ending(script))
      ensures engine.status.Running? <==> old(errors.handler) && error.StandardError? && ErrorOf(script).None?
      decreases 1, 5
    {
      hide IsReached, Inv, Apply, Enabled, IsStored, ErrorOf, AfterCode, CodeDone, NextStepIs;
      if errors.handler && error.StandardError? {
        rest := RunHandler(error, script);
      } else {
        ghost var w := W();
        ErrorIsFatal(w, error);
        var stored := error;
        if stored.Killed? {
          stored := Interrupt;
        }
        SetExitError(stored);
        rest := ReleaseLoop(script, Raise(error), w);
      }
    }

    // The user error handler, and what its own error brings about.
    method RunHandler(error: Error, script: seq<Event>) returns (rest: seq<Event>)
      requires Valid() && engine.status.Running? && control.user.Guarded? && control.release.NoRelease?
      requires errors.handler && error.StandardError?
      modifies this
      ensures Valid() && old(log) + [Raise(error)] <= log && |rest| <= |script|
      ensures InUvRun(W()) && control.main == old(control.main)
      ensures engine.status.Running? ==> tick.started == old(tick.started) && other.started == old(other.started)
      ensures NextStepIs(log, |old(log)| + 1, Ending(script))
      ensures engine.status.Running? <==> ErrorOf(script).None?
      decreases 1, 4
    {
      hide IsReached, Inv, Apply, Enabled, IsStored, ErrorOf, AfterCode, CodeDone, NextStepIs;
      EnterHandler(error);
      var error2;
      error2, rest := RunRuby(script);
      ghost var (handled, w) := (log, W());
      if error2.Some? {
        ErrorIsFatal(w, error2.value);
        SetExitError(error2.value);
        rest := ReleaseLoop(rest, Raise(error2.value), w);
      } else {
        EndRuby(None);
      }
      NextStepNow(handled, log, |old(log)| + 1, Ending(script));
    }

    // The step e, taken from w, ends in this call.
    method ReleaseLoop(script: seq<Event>, ghost e: Event, ghost w: World) returns (rest: seq<Event>)
      requires IsReached(w, log) && Inv(w) && Enabled(w, e) && TableFits()
      requires Apply(w, e) == BeginRelease(W()) && control.release.NoRelease?
      modifies this
      ensures Valid() && old(log) + [e] <= log && |rest| <= |script|
      ensures control == old(control)
      ensures engine.status == if old(engine.status).Running? then Releasing else old(engine.status)
      ensures old(engine.status).Running? ==> AllClosed(handles) && lookups.procs == {}
      ensures old(engine.status).Running? ==> tick.wake.None? && other.wake.None? && ubf.None?
      decreases if engine.status.Running? then 1 else 0, 3
    {
      hide IsReached, Inv, Apply, Enabled, IsStored;
      rest := script;
      match engine.status {
        case Running =>
        case Stopped =>
          Did(e, w);
          return;
        case Releasing =>
          Did(e, w);
          return;
      }
      engine := engine.(status := Releasing);
      tick := tick.(procs := []);
      other := other.(procs := []);
      control := control.(release := Traversing({}, false));
      Did(e, w);
      rest := DestroyHandles(rest);
      Unload();
    }

    // rb_hash_foreach(AE_handles, destroy_handle, Qnil). Entries may be deleted meanwhile;
    // none is added.
    method DestroyHandles(script: seq<Event>) returns (rest: seq<Event>)
      requires Valid() && engine.status.Releasing? && control.release == Traversing({}, false)
      modifies this
      ensures Valid() && old(log) <= log && |rest| <= |script|
      ensures engine.status.Releasing? && control == old(control).(release := control.release)
      ensures control.release.Traversing? && !control.release.calling
      ensures AllVisited(handles, control.release.visited)
      decreases 0, 8
    {
      hide IsReached, Inv, Apply, Enabled, IsStored, AllVisited;
      rest := script;
      var entries := table;
      var i := 0;
      while i < |entries|
        invariant 0 <= i <= |entries|
        invariant Valid() && old(log) <= log && |rest| <= |script|
        invariant engine.status.Releasing? && control.release.Traversing? && !control.release.calling
        invariant control == old(control).(release := control.release)
        invariant forall k | k in control.release.visited :: k in entries[..i]
        invariant forall k | k in table :: k in control.release.visited || k in entries[i..]
      {
        var k := entries[i];
        if k in table {
          assert k !in entries[..i];
          DestroyIsDue(W(), k);
          rest := RunWithErrorHandler(HandleDestroy(k), rest);
        }
        i := i + 1;
      }
      forall k | IsStored(handles, k)
        ensures k in control.release.visited
      {
        assert k in table;
      }
      AllAreVisited(handles, control.release.visited);
    }

    // The rest of ae_release_loop: the internal handles are closed and @_procs is cleared.
    method Unload()
      requires Valid() && control.release.Traversing? && !control.release.calling
      requires AllVisited(handles, control.release.visited)
      modifies this
      ensures Valid() && log == old(log) + [EndTraversal] && W() == Unloaded(old(W()))
      ensures AllClosed(handles)
    {
      hide IsReached, Inv, Apply, Enabled, AllVisited, AllClosed;
      ghost var w := W();
      UnloadIs(w);
      assert tick.wake.Some? && other.wake.Some? && ubf.Some?;
      tick := tick.(wake := None);
      other := other.(wake := None);
      ubf := None;
      handles := handles.(orphans := handles.orphans + 3);
      lookups := lookups.(procs := {});
      control := control.(release := NoRelease);
      Did(EndTraversal, w);
    }

    // -------- the queues' callbacks --------

    // _ae_idle_callback and _ae_async_callback, which differ in the queue only. If the engine
    // still runs at the end, every proc of the batch was started, in order.
    method RunBatch(script: seq<Event>) returns (rest: seq<Event>)
      requires Valid() && Enabled(W(), TakeProcs)
      modifies this
      ensures Valid() && old(log) + [TakeProcs] <= log && |rest| <= |script|
      ensures IsPolling(W())
      ensures engine.status.Running? ==>
        FifoOf(W(), old(control).main.q).started == old(FifoOf(W(), control.main.q).accepted)
    {
      hide IsReached, Inv, Apply, Enabled, IsStored, IsLogged;
      TakeIs(W());
      var procs := TakeBatch();
      ghost var (w, q) := (W(), control.main.q);
      var i := 0;
      rest := script;
      while i < |procs|
        invariant 0 <= i <= |procs|
        invariant Valid() && old(log) + [TakeProcs] <= log && |rest| <= |script|
        invariant InUvRun(W()) && control.main == InBatch(q, procs[i..])
        invariant engine.status.Running? ==> FifoOf(W(), q).started == FifoOf(w, q).started + procs[..i]
      {
        if !engine.status.Running? {
          break;
        }
        TakeOneMore(FifoOf(w, q).started, procs, i);
        StartIsDue(W());
        rest := RunWithErrorHandler(ProcCall(procs[i]), rest);
        i := i + 1;
      }
      assert engine.status.Running? ==> i == |procs| && procs[..i] == procs;
      EndOfBatch();
    }

    method EndOfBatch()
      requires Valid() && InUvRun(W()) && control.main.InBatch?
      requires control.main.rest == [] || !engine.status.Running?
      modifies this
      ensures Valid() && log == old(log) + [EndBatch] && W() == BatchEnded(old(W()))
    {
      hide IsReached, Inv, Apply, Enabled;
      ghost var w := W();
      BatchIsOver(w);
      control := control.(main := Polling);
      Did(EndBatch, w);
    }

    // procs = @_next_tick_procs; @_next_tick_procs = [].
    method TakeBatch() returns (procs: seq<Proc>)
      requires Valid() && Enabled(W(), TakeProcs)
      modifies this
      ensures Valid() && log == old(log) + [TakeProcs] && engine.status.Running?
      ensures W() == ProcsTaken(old(W()), old(control).main.q)
      ensures procs == old(FifoOf(W(), control.main.q).procs)
      ensures old(FifoOf(W(), control.main.q).accepted) == old(FifoOf(W(), control.main.q).started) + procs
    {
      hide IsReached, Inv, Apply, Enabled;
      ghost var w := W();
      TakeIs(w);
      TakeIsRunning(w);
      assert engine.status.Running?;
      var q := control.main.q;
      if q.Tick? {
        procs := tick.procs;
        tick := tick.(procs := []);
      } else {
        procs := other.procs;
        other := other.(procs := []);
      }
      control := control.(main := InBatch(q, procs));
      Did(TakeProcs, w);
    }

    // _uv_idle_callback and _uv_async_callback.
    method QueueCallback(q: Queue, script: seq<Event>) returns (rest: seq<Event>)
      requires Valid() && Enabled(W(), WakeFires(q))
      modifies this
      ensures Valid() && old(log) + [WakeFires(q), TakeProcs] <= log && |rest| <= |script|
      ensures IsPolling(W())
      ensures engine.status.Running? ==> FifoOf(W(), q).started == old(FifoOf(W(), q).accepted)
      ensures old(ReleaseProc in FifoOf(W(), q).accepted) ==> engine.status.Releasing?
    {
      hide IsReached, Inv, Apply, Enabled;
      WakeIs(W(), q);
      WokenIsEntering(W(), q);
      Wake(q);
      rest := RunBatch(script);
      PollingIsNotStopped(W());
      if engine.status.Running? {
        StopIsNeverPassed(W(), log, q);
      }
    }

    // uv_idle_stop, for the idle handle; libuv itself for the async handle.
    method Wake(q: Queue)
      requires Valid() && Enabled(W(), WakeFires(q))
      modifies this
      ensures Valid() && log == old(log) + [WakeFires(q)] && W() == Awoken(old(W()), q)
    {
      hide IsReached, Inv, Apply, Enabled;
      ghost var w := W();
      WakeIs(w, q);
      if q.Tick? {
        tick := tick.(wake := Some(false));
      } else {
        other := other.(wake := Some(false));
      }
      control := control.(main := Entering(q));
      Did(WakeFires(q), w);
    }

    // -------- the other callbacks of libuv --------

    // The callback of a socket or a timer, up to the Ruby code it may call, then that code.
    method SockCallback(i: nat, event: TcpSpec.Event, script: seq<Event>) returns (rest: seq<Event>)
      requires Valid() && Enabled(W(), SockUv(i, event))
      modifies this
      ensures Valid() && old(log) + [SockUv(i, event)] <= log && |rest| <= |script| && IsPolling(W())
      ensures if old(TcpSpec.EntersRuby(handles.socks[i], event)) then NextStepIs(log, |old(log)| + 1, Ending(script))
              else log == old(log) + [SockUv(i, event)] && rest == script
    {
      hide IsReached, Inv, Apply, Enabled, NextStepIs, TcpSpec.Apply, TcpSpec.EntersRuby;
      ghost var w := W();
      SockUvIs(w, i, event);
      var ruby := TcpSpec.EntersRuby(handles.socks[i], event);
      StepSock(i, event);
      if ruby {
        control := control.(user := Guarded);
      }
      Did(SockUv(i, event), w);
      rest := script;
      if ruby {
        rest := RunWithErrorHandler(RubyCallback, rest);
      }
    }

    method TimerCallback(i: nat, event: TimerSpec.Event, script: seq<Event>) returns (rest: seq<Event>)
      requires Valid() && Enabled(W(), TimerUv(i, event))
      modifies this
      ensures Valid() && old(log) + [TimerUv(i, event)] <= log && |rest| <= |script| && IsPolling(W())
      ensures if event.UvFires? then NextStepIs(log, |old(log)| + 1, Ending(script))
              else log == old(log) + [TimerUv(i, event)] && rest == script
    {
      hide IsReached, Inv, Apply, Enabled, NextStepIs, TimerSpec.Apply;
      ghost var w := W();
      TimerUvIs(w, i, event);
      StepTimer(i, event);
      if event.UvFires? {
        control := control.(user := Guarded);
      }
      Did(TimerUv(i, event), w);
      rest := script;
      if event.UvFires? {
        rest := RunWithErrorHandler(RubyCallback, rest);
      }
    }

    method LookupCallback(id: nat, script: seq<Event>) returns (rest: seq<Event>)
      requires Valid() && Enabled(W(), LookupDone(id))
      modifies this
      ensures Valid() && old(log) + [LookupDone(id)] <= log && |rest| <= |script| && IsPolling(W())
      ensures if old(engine.status).Running? then NextStepIs(log, |old(log)| + 1, Ending(script))
              else log == old(log) + [LookupDone(id)] && rest == script
    {
      hide IsReached, Inv, Apply, Enabled, NextStepIs;
      ghost var w := W();
      LookupIs(w, id);
      lookups := lookups.(procs := lookups.procs - {id}, pending := lookups.pending - {id});
      var call := engine.status.Running?;
      if call {
        control := control.(user := Guarded);
      }
      Did(LookupDone(id), w);
      rest := script;
      if call {
        rest := RunWithErrorHandler(RubyCallback, rest);
      }
    }

    method UbfCallback(script: seq<Event>) returns (rest: seq<Event>)
      requires Valid() && Enabled(W(), UbfFires)
      modifies this
      ensures Valid() && old(log) + [UbfFires] <= log && |rest| <= |script| && IsPolling(W())
      ensures if old(engine.status).Running? then NextStepIs(log, |old(log)| + 1, Ending(script))
              else log == old(log) + [UbfFires] && rest == script
    {
      hide IsReached, Inv, Apply, Enabled, NextStepIs;
      ghost var w := W();
      UbfIs(w);
      ubf := Some(false);
      var call := engine.status.Running?;
      if call {
        control := control.(user := Guarded);
      }
      Did(UbfFires, w);
      rest := script;
      if call {
        rest := RunWithErrorHandler(RubyCallback, rest);
      }
    }

    // -------- AE.run, after rb_mutex_lock --------

    // uv_run: libuv delivers the events of the script that it may deliver, and the other
    // threads make the calls of the script; it returns when nothing is active. False when
    // the script ends before.
    method UvRun(script: seq<Event>) returns (done: bool, rest: seq<Event>)
      requires Valid() && IsPolling(W())
      modifies this
      ensures Valid() && old(log) <= log && |rest| <= |script|
      ensures IsPolling(W()) && (if done then NothingActive(W()) else rest == [])
    {
      hide IsReached, Inv, Apply, NothingActive, IsStored;
      rest := script;
      while rest != []
        invariant Valid() && old(log) <= log && |rest| <= |script| && IsPolling(W())
        decreases |rest|
      {
        var e := rest[0];
        rest := rest[1..];
        if Enabled(W(), e) {
          if e.LoopExits? {
            return true, rest;
          } else if e.WakeFires? {
            rest := QueueCallback(e.q, rest);
          } else if e.SockUv? {
            rest := SockCallback(e.i, e.sockEvent, rest);
          } else if e.TimerUv? {
            rest := TimerCallback(e.i, e.timerEvent, rest);
          } else if e.LookupDone? {
            rest := LookupCallback(e.id, rest);
          } else if e.UbfFires? {
            rest := UbfCallback(rest);
          } else if e.OrphanCloses? {
            OrphanCallback();
          } else if IsCall(e) {
            ghost var w := W();
            Call(e);
            CallKeepsCode(w, e);
          }
        }
      }
      done := false;
    }

    method OrphanCallback()
      requires Valid() && Enabled(W(), OrphanCloses)
      modifies this
      ensures Valid() && log == old(log) + [OrphanCloses] && IsPolling(W())
    {
      hide IsReached, Inv;
      ghost var w := W();
      handles := handles.(orphans := handles.orphans - 1);
      Did(OrphanCloses, w);
    }

    // Thread t has the mutex. The two early returns of the C code for an engine that is not
    // stopped are never taken. If uv_run returns, everything lib/asyncengine/debug.rb asks of
    // a released engine is so, and the error captured is the one the run ended with.
    method RunLocked(t: Tid, script: seq<Event>) returns (done: bool, captured: Option<Error>, rest: seq<Event>)
      requires Valid() && Enabled(W(), Lock(t))
      modifies this
      ensures Valid() && old(log) + [Lock(t)] <= log && |rest| <= |script|
      ensures done <==> engine.status.Stopped?
      ensures if done then log[|log| - 1] == LoopExits else rest == []
      ensures done ==>
        var before := log[..|log| - 1];
        IsLegal(INITIAL, before) && captured == ReactorRuns.Run(INITIAL, before).errors.exit
      ensures done ==> table == [] && lookups.procs == {} && tick.procs == [] && other.procs == []
      ensures done ==> IsQuiet(handles) && lookups.pending == {} && errors.exit.None?
      ensures done ==> engine.mutex.None? && engine.thread.None?
    {
      if !engine.status.Stopped? {
        LockFindsStopped(W(), log, t);
        assert false;
      }
      hide IsReached, Inv, IsStored, IsQuiet;
      StartUp(t);
      done, rest := UvRun(script);
      captured := errors.exit;
      if done {
        Exit();
      }
    }

    // From the mutex to uv_run: the thread is recorded, the internal handles are made, and
    // the proc goes to next_tick.
    method StartUp(t: Tid)
      requires Valid() && Enabled(W(), Lock(t))
      modifies this
      ensures Valid() && log == old(log) + [Lock(t)]
      ensures engine.status.Running? && engine.mutex == Some(t) && control == START
      ensures tick.procs == [old(engine).waiting[t]] && other.procs == []
    {
      hide IsReached, Inv, Apply, Enabled;
      ghost var w := W();
      LockFindsStopped(w, log, t);
      LockIs(w, t);
      var p := engine.waiting[t];
      engine := engine.(mutex := Some(t), waiting := engine.waiting - {t}, thread := Some(t));
      assert tick.wake.None? && other.wake.None? && ubf.None?;
      tick := Fifo(tick.procs, Some(false), [], []);
      other := Fifo(other.procs, Some(false), [], []);
      ubf := Some(false);
      engine := engine.(status := Running);
      errors := errors.(times := 0);
      control := START;
      var ret := NextTick(p);
      assert lookups.pending == {};
      Did(Lock(t), w);
    }

    // What follows uv_run, up to the release of the mutex.
    method Exit()
      requires Valid() && IsPolling(W()) && NothingActive(W())
      modifies this
      ensures Valid() && log == old(log) + [LoopExits] && engine.status.Stopped?
      ensures table == [] && lookups.procs == {} && tick.procs == [] && other.procs == []
      ensures IsQuiet(handles) && lookups.pending == {} && errors.exit.None?
      ensures engine.mutex.None? && engine.thread.None?
    {
      hide IsReached, Inv, Apply, Enabled, NothingActive, IsStored, IsQuiet;
      ghost var w := W();
      ExitIs(w);
      engine := engine.(thread := None);
      errors := errors.(exit := None);
      engine := engine.(status := Stopped, mutex := None);
      Did(LoopExits, w);
      StoppedIsEmpty(W(), log);
      EmptyHasNone(table);
    }
  }
}
