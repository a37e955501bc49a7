/**
  A release ends: no call of the program can create a handle or a request any more, every
  event libuv delivers takes away one of those that are left, and there is always a next step
  until uv_run returns.
 */
module ReactorRelease {
  import TcpSpec
  import TcpRuns
  import TimerSpec
  import opened ReactorSpec
  import opened ReactorInv
  import opened ReactorRuns

  // -------- the iteration over @_handles --------

  function AllKeys(hs: Handles): set<Key> {
    (set i | 0 <= i < |hs.socks| :: SockKey(i)) + (set i | 0 <= i < |hs.timers| :: TimerKey(i))
  }

  function Unvisited(w: World): set<Key>
    requires w.control.release.Traversing?
  {
    AllKeys(w.handles) - w.control.release.visited
  }

  // `destroy` is called on an entry once, and no entry is added: whatever the callbacks of
  // the program do meanwhile, fewer entries are left after each call.
  lemma TraversalAdvances(w: World, k: Key)
    requires Inv(w) && Enabled(w, DestroyNext(k))
    ensures Apply(w, DestroyNext(k)).control.release.Traversing?
    ensures Unvisited(Apply(w, DestroyNext(k))) == Unvisited(w) - {k} && k in Unvisited(w)
  {
    assert AllKeys(Apply(w, DestroyNext(k)).handles) == AllKeys(w.handles);
  }

  lemma TraversalIsNotExtended(w: World, e: Event)
    requires Inv(w) && Enabled(w, e) && w.control.release.Traversing? && !e.DestroyNext? && !e.EndTraversal?
    ensures Apply(w, e).control.release.Traversing?
    ensures Unvisited(Apply(w, e)) == Unvisited(w)
  {
    assert AllKeys(Apply(w, e).handles) == AllKeys(w.handles);
  }

  // -------- what libuv still has to do --------

  function SocksWork(ss: seq<TcpSpec.Sock>): nat {
    if ss == [] then 0 else TcpRuns.Work(ss[0]) + SocksWork(ss[1..])
  }

  function TimersWork(ts: seq<TimerSpec.Timer>): nat {
    if ts == [] then 0 else TimerSpec.Work(ts[0]) + TimersWork(ts[1..])
  }

  // Unclosed uv handles and pending requests.
  function Work(w: World): nat {
    SocksWork(w.handles.socks) + TimersWork(w.handles.timers) + w.handles.orphans + |w.lookups.pending|
  }

  lemma {:induction false} SocksWorkAt(ss: seq<TcpSpec.Sock>, i: nat, s: TcpSpec.Sock)
    requires i < |ss|
    ensures SocksWork(ss[i := s]) == SocksWork(ss) - TcpRuns.Work(ss[i]) + TcpRuns.Work(s)
  {
    if i == 0 {
      assert ss[0 := s][1..] == ss[1..];
    } else {
      assert ss[i := s][1..] == ss[1..][i - 1 := s];
      SocksWorkAt(ss[1..], i - 1, s);
    }
  }

  lemma {:induction false} TimersWorkAt(ts: seq<TimerSpec.Timer>, i: nat, t: TimerSpec.Timer)
    requires i < |ts|
    ensures TimersWork(ts[i := t]) == TimersWork(ts) - TimerSpec.Work(ts[i]) + TimerSpec.Work(t)
  {
    if i == 0 {
      assert ts[0 := t][1..] == ts[1..];
    } else {
      assert ts[i := t][1..] == ts[1..][i - 1 := t];
      TimersWorkAt(ts[1..], i - 1, t);
    }
  }

  lemma {:induction false} NoSockWork(ss: seq<TcpSpec.Sock>) returns (i: nat)
    requires forall s | s in ss :: TcpSpec.Inv(s) && !s.open
    ensures SocksWork(ss) > 0 ==> i < |ss| && TcpRuns.Work(ss[i]) > 0
    ensures SocksWork(ss) == 0 ==> forall s | s in ss :: SockIsInactive(s)
  {
    i := 0;
    if ss != [] {
      var j := NoSockWork(ss[1..]);
      i := if TcpRuns.Work(ss[0]) > 0 then 0 else j + 1;
      assert forall s | s in ss :: s == ss[0] || s in ss[1..];
    }
  }

  lemma {:induction false} NoTimerWork(ts: seq<TimerSpec.Timer>) returns (i: nat)
    requires forall t | t in ts :: TimerSpec.Inv(t) && !t.open
    ensures TimersWork(ts) > 0 ==> i < |ts| && TimerSpec.Work(ts[i]) > 0
    ensures TimersWork(ts) == 0 ==> forall t | t in ts :: TimerIsInactive(t)
  {
    i := 0;
    if ts != [] {
      var j := NoTimerWork(ts[1..]);
      i := if TimerSpec.Work(ts[0]) > 0 then 0 else j + 1;
      assert forall t | t in ts :: t == ts[0] || t in ts[1..];
    }
  }

  // -------- after ae_release_loop has returned --------

  predicate IsReleased(w: World) {
    w.engine.status.Releasing? && w.control.release.NoRelease?
  }

  // The events of libuv that are left then.
  predicate IsUvWork(e: Event) {
    e.SockUv? || e.TimerUv? || e.OrphanCloses? || e.LookupDone?
  }

  lemma SockUvWorks(w: World, i: nat, event: TcpSpec.Event)
    requires Inv(w) && IsReleased(w) && Enabled(w, SockUv(i, event))
    ensures Work(Apply(w, SockUv(i, event))) == Work(w) - 1
  {
    TcpRuns.ClosedWorkDrops(w.handles.socks[i], event);
    SocksWorkAt(w.handles.socks, i, TcpSpec.Apply(w.handles.socks[i], event));
  }

  lemma TimerUvWorks(w: World, i: nat, event: TimerSpec.Event)
    requires Inv(w) && IsReleased(w) && Enabled(w, TimerUv(i, event))
    ensures Work(Apply(w, TimerUv(i, event))) == Work(w) - 1
  {
    TimerSpec.ClosedStep(w.handles.timers[i], event);
    TimersWorkAt(w.handles.timers, i, TimerSpec.Apply(w.handles.timers[i], event));
  }

  lemma LookupWorks(w: World, id: nat)
    requires Inv(w) && IsReleased(w) && Enabled(w, LookupDone(id))
    ensures Work(Apply(w, LookupDone(id))) == Work(w) - 1
  {
    assert |w.lookups.pending - {id}| == |w.lookups.pending| - 1;
  }

  lemma OrphanWorks(w: World)
    requires Inv(w) && IsReleased(w) && Enabled(w, OrphanCloses)
    ensures Work(Apply(w, OrphanCloses)) == Work(w) - 1
  {
  }

  // Nothing the program or another thread calls changes what is left.
  lemma CallsAddNoWork(w: World, e: Event)
    requires Inv(w) && IsReleased(w) && Enabled(w, e) && !IsUvWork(e)
    ensures Apply(w, e).handles == w.handles && Apply(w, e).lookups == w.lookups
  {
    if e.SockCall? {
      SockCallIsFutile(w, e.i, e.sockCall);
    } else if e.TimerCall? {
      TimerCallIsFutile(w, e.i, e.timerCall);
    } else if IsCall(e) {
      hide Inv, Enabled, Apply;
      CallsKeepTheHandles(w, e);
    } else {
      hide WithSock, WithTimer, FifoFits, HandlesFit, LookupsFit, ErrorsFit, FifoOf, AllVisited, NothingActive;
    }
  }

  lemma SockCallIsFutile(w: World, i: nat, call: TcpSpec.Event)
    requires Inv(w) && IsReleased(w) && i < |w.handles.socks| && !TcpSpec.IsUv(call)
    ensures SockStepped(w, i, call, false) == w
  {
    TcpRuns.ClosedCallsDoNothing(w.handles.socks[i], call);
    assert w.handles.socks[i := w.handles.socks[i]] == w.handles.socks;
  }

  lemma TimerCallIsFutile(w: World, i: nat, call: TimerSpec.Event)
    requires Inv(w) && IsReleased(w) && i < |w.handles.timers|
    requires !TimerSpec.IsUv(call) && TimerSpec.Enabled(w.handles.timers[i], call)
    ensures TimerStepped(w, i, call, false) == w
  {
    TimerSpec.ClosedStep(w.handles.timers[i], call);
    assert w.handles.timers[i := w.handles.timers[i]] == w.handles.timers;
  }

  // What one step takes away.
  function Step(e: Event): nat {
    if IsUvWork(e) then 1 else 0
  }

  lemma WorkDrops(w: World, e: Event)
    requires Inv(w) && IsReleased(w) && Enabled(w, e)
    ensures Work(Apply(w, e)) == Work(w) - Step(e)
  {
    hide Inv, Enabled, Apply, IsReleased;
    if e.SockUv? {
      SockUvWorks(w, e.i, e.sockEvent);
    } else if e.TimerUv? {
      TimerUvWorks(w, e.i, e.timerEvent);
    } else if e.LookupDone? {
      LookupWorks(w, e.id);
    } else if e.OrphanCloses? {
      OrphanWorks(w);
    } else {
      CallsAddNoWork(w, e);
    }
  }

  function UvWorkIn(es: seq<Event>): nat {
    if es == [] then 0 else Step(es[0]) + UvWorkIn(es[1..])
  }

  lemma {:induction false} WorkIsDoneOnce(w: World, es: seq<Event>)
    requires Inv(w) && IsReleased(w) && IsLegal(w, es)
    requires forall i | 0 <= i < |es| :: !es[i].LoopExits?
    ensures UvWorkIn(es) + Work(Run(w, es)) == Work(w)
    ensures IsReleased(Run(w, es))
    decreases |es|
  {
    hide Inv, Enabled, Apply, Work, Step, IsReleased;
    if es != [] {
      StepKeeps(w, es[0]);
      WorkDrops(w, es[0]);
      StaysReleased(w, es[0]);
      assert !es[0].LoopExits?;
      WorkIsDoneOnce(Apply(w, es[0]), es[1..]);
    }
  }

  // In every run from there the events libuv delivers before uv_run returns are at most the
  // handles and requests that were left, each taking away one.
  lemma ReleaseTerminates(w: World, before: seq<Event>, after: seq<Event>)
    requires IsReached(w, before) && IsReleased(w) && IsLegal(w, after)
    requires forall i | 0 <= i < |after| :: !after[i].LoopExits?
    ensures UvWorkIn(after) <= Work(w) && Work(Run(w, after)) == Work(w) - UvWorkIn(after)
  {
    ReachedFits(w, before);
    WorkIsDoneOnce(w, after);
  }

  lemma StaysReleased(w: World, e: Event)
    requires Inv(w) && IsReleased(w) && Enabled(w, e)
    ensures IsReleased(Apply(w, e)) || e.LoopExits?
  {
  }

  // -------- there is always a next step --------

  lemma ReleasedFits(w: World)
    requires Inv(w) && IsReleased(w)
    ensures forall s | s in w.handles.socks :: TcpSpec.Inv(s) && !s.open
    ensures forall t | t in w.handles.timers :: TimerSpec.Inv(t) && !t.open
    ensures w.tick.wake.None? && w.other.wake.None? && w.ubf.None?
  {
    hide TcpSpec.Inv, TimerSpec.Inv;
  }

  // The step that libuv takes when the loop polls: an event that is due, or the return of
  // uv_run, which happens exactly when no work is left.
  lemma PollingGoesOn(w: World) returns (e: Event)
    requires Inv(w) && IsReleased(w) && IsPolling(w)
    ensures Enabled(w, e)
    ensures if Work(w) > 0 then IsUvWork(e) else e.LoopExits?
  {
    hide Inv, TcpSpec.Inv, TcpSpec.Enabled, TcpSpec.IsUv, TcpRuns.Work, TcpRuns.NextUv, SocksWork, TimersWork;
    hide SockIsInactive, TimerIsInactive, TimerSpec.Inv;
    ReleasedFits(w);
    var i := NoSockWork(w.handles.socks);
    var j := NoTimerWork(w.handles.timers);
    if SocksWork(w.handles.socks) > 0 {
      TcpRuns.ClosedWorkGoesOn(w.handles.socks[i]);
      e := SockUv(i, TcpRuns.NextUv(w.handles.socks[i]));
    } else if TimersWork(w.handles.timers) > 0 {
      ClosedTimerGoesOn(w.handles.timers[j]);
      e := TimerUv(j, TimerSpec.UvCloses);
    } else if w.handles.orphans > 0 {
      e := OrphanCloses;
    } else if |w.lookups.pending| > 0 {
      var id :| id in w.lookups.pending;
      e := LookupDone(id);
    } else {
      e := LoopExits;
    }
  }

  lemma ClosedTimerGoesOn(t: TimerSpec.Timer)
    requires TimerSpec.Inv(t) && !t.open && TimerSpec.Work(t) > 0
    ensures TimerSpec.Enabled(t, TimerSpec.UvCloses)
  {
  }

  // While releasing, the program's code runs or there is a step for libuv or the C code.
  lemma ReleasingGoesOn(w: World) returns (e: Event)
    requires Inv(w) && w.engine.status.Releasing?
    ensures UserRuns(w) ||
      (Enabled(w, e) && (IsUvWork(e) || e.LoopExits? || e.EndBatch? || e.DestroyNext? || e.EndTraversal?))
  {
    hide Enabled, IsStored, AllVisited, FifoFits, HandlesFit, LookupsFit, ErrorsFit, EngineFits;
    e := EndTraversal;
    if UserRuns(w) {
    } else if w.control.release.Traversing? {
      e := TraversalGoesOn(w);
    } else if w.control.main.InBatch? {
      e := EndBatch;
      BatchGoesOn(w);
    } else {
      e := PollingGoesOn(w);
    }
  }

  lemma BatchGoesOn(w: World)
    requires w.engine.status.Releasing? && InUvRun(w) && w.control.main.InBatch?
    ensures Enabled(w, EndBatch)
  {
  }

  lemma TraversalGoesOn(w: World) returns (e: Event)
    requires w.control.release.Traversing? && !w.control.release.calling
    ensures Enabled(w, e) && (e.DestroyNext? || e.EndTraversal?)
  {
    var (hs, visited) := (w.handles, w.control.release.visited);
    if i: nat :| i < |hs.socks| && hs.socks[i].stored && SockKey(i) !in visited {
      e := DestroyNext(SockKey(i));
    } else if i: nat :| i < |hs.timers| && hs.timers[i].stored && TimerKey(i) !in visited {
      e := DestroyNext(TimerKey(i));
    } else {
      e := EndTraversal;
    }
  }
}
