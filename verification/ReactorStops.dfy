/**
  No state of the reactor is a dead end: from each that a run reaches there is a way on to
  STOPPED, by way of AE.stop from any thread.
 */
module ReactorStops {
  import opened Wrappers
  import opened ReactorSpec
  import opened ReactorInv
  import opened ReactorRuns
  import opened ReactorRelease

  ghost predicate CanStop(w: World) {
    exists es :: IsLegal(w, es) && Run(w, es).engine.status.Stopped?
  }

  lemma StoppedCanStop(w: World)
    requires w.engine.status.Stopped?
    ensures CanStop(w)
  {
    assert IsLegal(w, []) && Run(w, []) == w;
  }

  lemma StepCanStop(w: World, e: Event)
    requires Enabled(w, e) && CanStop(Apply(w, e))
    ensures CanStop(w)
  {
    hide Enabled, Apply;
    var es :| IsLegal(Apply(w, e), es) && Run(Apply(w, e), es).engine.status.Stopped?;
    assert ([e] + es)[1..] == es;
    assert IsLegal(w, [e] + es) && Run(w, [e] + es) == Run(Apply(w, e), es);
  }

  // -------- releasing --------

  function Left(w: World): nat {
    if w.control.release.Traversing? then |Unvisited(w)| else 0
  }

  // How much C code and Ruby code is on the stack.
  function Depth(w: World): nat {
    (if UserRuns(w) then 2 else 0) + (if w.control.main.InBatch? then 1 else 0)
  }

  predicate IsReleasing(w: World) {
    w.engine.status.Releasing?
  }

  // One more step of a release: it stops the engine, or less is left to do.
  predicate Advances(w: World, w': World) {
    || w'.engine.status.Stopped?
    || (IsReleasing(w') && w.control.release.Traversing? && w'.control.release.NoRelease?)
    || (IsReleasing(w') && w.control.release.Traversing? == w'.control.release.Traversing? &&
        (Left(w') < Left(w) || (Left(w') == Left(w) &&
         (Work(w') < Work(w) || (Work(w') == Work(w) && Depth(w') < Depth(w))))))
  }

  lemma ReturnAdvances(w: World)
    requires Inv(w) && IsReleasing(w) && UserRuns(w)
    ensures Enabled(w, Return) && Advances(w, Apply(w, Return))
  {
  }

  lemma DestroyAdvances(w: World, k: Key)
    requires Inv(w) && Enabled(w, DestroyNext(k))
    ensures Advances(w, Apply(w, DestroyNext(k)))
  {
    TraversalAdvances(w, k);
    assert |Unvisited(w) - {k}| == |Unvisited(w)| - 1;
    DestroyIsReleasing(w, k);
    hide Inv, Enabled, Apply, Unvisited;
  }

  lemma DestroyIsReleasing(w: World, k: Key)
    requires Inv(w) && Enabled(w, DestroyNext(k))
    ensures IsReleasing(Apply(w, DestroyNext(k)))
  {
  }

  lemma UvAdvances(w: World, e: Event)
    requires Inv(w) && IsReleased(w) && Enabled(w, e) && IsUvWork(e)
    ensures Advances(w, Apply(w, e))
  {
    WorkDrops(w, e);
    StaysReleased(w, e);
    hide Inv, Enabled, Apply, Work;
  }

  lemma EndBatchAdvances(w: World)
    requires Inv(w) && IsReleasing(w) && Enabled(w, EndBatch)
    ensures Advances(w, Apply(w, EndBatch))
  {
  }

  lemma ReleaseAdvances(w: World) returns (e: Event)
    requires Inv(w) && IsReleasing(w)
    ensures Enabled(w, e) && Advances(w, Apply(w, e))
  {
    e := ReleasingGoesOn(w);
    if UserRuns(w) {
      ReturnAdvances(w);
      e := Return;
    } else if e.DestroyNext? {
      DestroyAdvances(w, e.k);
    } else if e.EndBatch? {
      EndBatchAdvances(w);
    } else if IsUvWork(e) {
      UvIsReleased(w, e);
      UvAdvances(w, e);
    } else {
      OtherAdvances(w, e);
    }
  }

  lemma UvIsReleased(w: World, e: Event)
    requires Inv(w) && IsReleasing(w) && Enabled(w, e) && IsUvWork(e)
    ensures IsReleased(w)
  {
  }

  lemma OtherAdvances(w: World, e: Event)
    requires Inv(w) && IsReleasing(w) && Enabled(w, e) && (e.LoopExits? || e.EndTraversal?)
    ensures Advances(w, Apply(w, e))
  {
  }

  lemma {:induction false} ReleasingCanStop(w: World)
    requires Inv(w) && IsReleasing(w)
    ensures CanStop(w)
    decreases if w.control.release.Traversing? then 1 else 0, Left(w), Work(w), Depth(w)
  {
    var e := ReleaseAdvances(w);
    StepKeeps(w, e);
    hide Inv, Enabled, Apply, Left, Work, Depth;
    if Apply(w, e).engine.status.Stopped? {
      StoppedCanStop(Apply(w, e));
    } else {
      ReleasingCanStop(Apply(w, e));
    }
    StepCanStop(w, e);
  }

  // -------- running --------

  // A thread that is neither the loop's nor waiting for the mutex.
  lemma {:induction false} AboveAll(s: set<nat>) returns (n: nat)
    ensures forall x | x in s :: x < n
  {
    if s == {} {
      n := 0;
    } else {
      var x :| x in s;
      var m := AboveAll(s - {x});
      n := if x < m then m else x + 1;
      assert forall y | y in s :: y == x || y in s - {x};
    }
  }

  lemma FreeThread(w: World) returns (t: Tid)
    ensures CanCall(w, t) && !OnLoopThread(w, t)
  {
    var used := w.engine.waiting.Keys + (if w.engine.thread.Some? then {w.engine.thread.value} else {});
    t := AboveAll(used);
    assert t !in used;
  }

  // A proc of the program can start and return, which leaves the rest of the batch.
  lemma ProcRunsThrough(w: World)
    requires Inv(w) && w.engine.status.Running? && InUvRun(w)
    requires w.control.main.InBatch? && w.control.main.rest != [] && w.control.main.rest[0].UserProc?
    ensures Enabled(w, StartProc) && Enabled(Apply(w, StartProc), Return)
    ensures var w' := Apply(Apply(w, StartProc), Return);
      && w'.engine.status.Running? && InUvRun(w')
      && w'.control.main == InBatch(w.control.main.q, w.control.main.rest[1..])
  {
    hide FifoFits, HandlesFit, LookupsFit, ErrorsFit, EngineFits;
  }

  lemma StopStarts(w: World)
    requires Inv(w) && w.engine.status.Running? && InUvRun(w)
    requires w.control.main.InBatch? && w.control.main.rest != [] && w.control.main.rest[0].ReleaseProc?
    ensures Enabled(w, StartProc) && IsReleasing(Apply(w, StartProc))
  {
    hide FifoFits, HandlesFit, LookupsFit, ErrorsFit, EngineFits;
  }

  lemma ProcCanStop(w: World)
    requires Inv(w) && w.engine.status.Running? && InUvRun(w)
    requires w.control.main.InBatch? && w.control.main.rest != [] && w.control.main.rest[0].UserProc?
    requires Enabled(w, StartProc) && Enabled(Apply(w, StartProc), Return)
    requires CanStop(Apply(Apply(w, StartProc), Return))
    ensures CanStop(w)
  {
    hide Inv, Enabled, Apply, CanStop;
    StepCanStop(Apply(w, StartProc), Return);
    StepCanStop(w, StartProc);
  }

  // A batch that holds the block of AE.stop comes to it, whatever the procs before it are.
  lemma {:induction false} StopInBatch(w: World)
    requires Inv(w) && w.engine.status.Running? && InUvRun(w)
    requires w.control.main.InBatch? && ReleaseProc in w.control.main.rest
    ensures CanStop(w)
    decreases |w.control.main.rest|
  {
    hide Inv, Enabled, Apply, CanStop;
    var rest := w.control.main.rest;
    if rest[0].ReleaseProc? {
      StopStarts(w);
      StepKeeps(w, StartProc);
      ReleasingCanStop(Apply(w, StartProc));
      StepCanStop(w, StartProc);
    } else {
      ProcRunsThrough(w);
      StepKeeps(w, StartProc);
      StepKeeps(Apply(w, StartProc), Return);
      assert ReleaseProc in rest[1..];
      StopInBatch(Apply(Apply(w, StartProc), Return));
      ProcCanStop(w);
    }
  }

  lemma StopWhenTaken(w: World)
    requires Inv(w) && w.engine.status.Running? && InUvRun(w)
    requires w.control.main == Entering(Other) && ReleaseProc in w.other.procs
    ensures CanStop(w)
  {
    StepKeeps(w, TakeProcs);
    StopInBatch(Apply(w, TakeProcs));
    StepCanStop(w, TakeProcs);
  }

  lemma StopWhenWoken(w: World)
    requires Inv(w) && w.engine.status.Running? && IsPolling(w)
    requires w.other.wake == Some(true) && ReleaseProc in w.other.procs
    ensures CanStop(w)
  {
    StepKeeps(w, WakeFires(Other));
    StopWhenTaken(Apply(w, WakeFires(Other)));
    StepCanStop(w, WakeFires(Other));
  }

  lemma PollingCanStop(w: World)
    requires Inv(w) && w.engine.status.Running? && IsPolling(w)
    ensures CanStop(w)
  {
    var t := FreeThread(w);
    StepKeeps(w, StopCall(t));
    var w1 := Apply(w, StopCall(t));
    assert w1.other.procs == w.other.procs + [ReleaseProc];
    StopWhenWoken(w1);
    StepCanStop(w, StopCall(t));
  }

  lemma {:induction false} BatchCanStop(w: World)
    requires Inv(w) && w.engine.status.Running? && InUvRun(w) && w.control.main.InBatch?
    ensures CanStop(w)
    decreases |w.control.main.rest|
  {
    hide Inv, Enabled, Apply, CanStop;
    if ReleaseProc in w.control.main.rest {
      StopInBatch(w);
    } else if w.control.main.rest == [] {
      BatchEndsPolling(w);
      StepKeeps(w, EndBatch);
      PollingCanStop(Apply(w, EndBatch));
      StepCanStop(w, EndBatch);
    } else {
      ProcRunsThrough(w);
      StepKeeps(w, StartProc);
      StepKeeps(Apply(w, StartProc), Return);
      BatchCanStop(Apply(Apply(w, StartProc), Return));
      ProcCanStop(w);
    }
  }

  lemma BatchEndsPolling(w: World)
    requires w.engine.status.Running? && InUvRun(w) && w.control.main.InBatch? && w.control.main.rest == []
    ensures Enabled(w, EndBatch)
    ensures Apply(w, EndBatch).engine.status.Running? && IsPolling(Apply(w, EndBatch))
  {
  }

  lemma CodeCanStop(w: World)
    requires Inv(w) && w.engine.status.Running? && InUvRun(w)
    ensures CanStop(w)
  {
    match w.control.main
    case Polling => PollingCanStop(w);
    case InBatch(_, _) => BatchCanStop(w);
    case Entering(_) =>
      StepKeeps(w, TakeProcs);
      BatchCanStop(Apply(w, TakeProcs));
      StepCanStop(w, TakeProcs);
  }

  // From every reachable state the engine can still be brought to STOPPED.
  lemma CanAlwaysStop(w: World, es: seq<Event>)
    requires IsReached(w, es)
    ensures CanStop(w)
  {
    ReachedFits(w, es);
    match w.engine.status
    case Stopped => StoppedCanStop(w);
    case Releasing => ReleasingCanStop(w);
    case Running =>
      if UserRuns(w) {
        StepKeeps(w, Return);
        CodeCanStop(Apply(w, Return));
        StepCanStop(w, Return);
      } else {
        CodeCanStop(w);
      }
  }
}
