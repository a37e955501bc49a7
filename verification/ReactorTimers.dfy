/**
  A timer inside a run of the reactor: what happens to it is one of the lives of TimerSpec,
  so that all that holds of those holds in the reactor.
 */
module ReactorTimers {
  import opened Wrappers
  import TcpSpec
  import TimerSpec
  import opened ReactorSpec
  import opened ReactorInv
  import opened ReactorRuns

  // What a step of the reactor is for timer i.
  function EventFor(e: Event, i: nat): Option<TimerSpec.Event> {
    match e
    case TimerCall(j, call) => if j == i then Some(call) else None
    case TimerUv(j, event) => if j == i then Some(event) else None
    case DestroyNext(TimerKey(j)) => if j == i then Some(TimerSpec.DoDestroy) else None
    case _ => None
  }

  // What Timer.new and PeriodicTimer.new make, whether or not libuv starts it.
  ghost predicate IsNew(t: TimerSpec.Timer) {
    || (exists delay, ok :: t == TimerSpec.New(delay, ok))
    || (exists interval, delay, ok :: t == TimerSpec.NewPeriodic(interval, delay, ok))
  }

  lemma OtherStepsKeepTheTimers(w: World, e: Event)
    requires Enabled(w, e) && !e.TimerCall? && !e.TimerUv? && !e.TimerNew? && !e.PeriodicNew? && !e.DestroyNext?
    ensures Apply(w, e).handles.timers == w.handles.timers
  {
    hide TcpSpec.Apply, TcpSpec.Made, TcpSpec.Enabled, TcpSpec.EntersRuby, TimerSpec.Apply, TimerSpec.Enabled;
    hide Push, Loaded, FifoOf, AllVisited, NothingActive, CanCall;
  }

  lemma NewTimers(w: World, e: Event)
    requires Enabled(w, e) && (e.TimerNew? || e.PeriodicNew?)
    ensures var (ts, ts') := (w.handles.timers, Apply(w, e).handles.timers);
      ts' == ts || (|ts'| == |ts| + 1 && ts'[..|ts|] == ts && IsNew(ts'[|ts|]))
  {
    hide TimerSpec.New, TimerSpec.NewPeriodic, IsNew;
    if e.TimerNew? {
      OneShotIsNew(e.delay, e.oneShotHow.Starts?);
    } else {
      PeriodicIsNew(e.interval, e.first, e.periodicHow.Starts?);
    }
  }

  lemma TimersOfAStep(w: World, e: Event, i: nat)
    requires Enabled(w, e)
    ensures var (ts, ts') := (w.handles.timers, Apply(w, e).handles.timers);
      && |ts| <= |ts'|
      && (|ts| <= i < |ts'| ==> IsNew(ts'[i]))
      && (i < |ts| && EventFor(e, i).None? ==> ts'[i] == ts[i])
      && (i < |ts| && EventFor(e, i).Some? ==>
            TimerSpec.Enabled(ts[i], EventFor(e, i).value) && ts'[i] == TimerSpec.Apply(ts[i], EventFor(e, i).value))
  {
    if !e.TimerCall? && !e.TimerUv? && !e.DestroyNext? {
      hide Enabled, Apply, IsNew;
      if e.TimerNew? || e.PeriodicNew? {
        NewTimers(w, e);
      } else {
        OtherStepsKeepTheTimers(w, e);
      }
    } else {
      hide TcpSpec.Apply, TimerSpec.Apply, TcpSpec.Made, TcpSpec.Enabled, TcpSpec.EntersRuby, IsNew;
    }
  }

  lemma OneShotIsNew(delay: int, ok: bool)
    ensures IsNew(TimerSpec.New(delay, ok))
  {
  }

  lemma PeriodicIsNew(interval: int, delay: Option<int>, ok: bool)
    ensures IsNew(TimerSpec.NewPeriodic(interval, delay, ok))
  {
  }

  // Timer i as it was made, or as it is when the run begins.
  function BirthOf(w: World, es: seq<Event>, i: nat): TimerSpec.Timer
    requires IsLegal(w, es) && i < |Run(w, es).handles.timers|
    decreases |es|
  {
    if es == [] || i < |w.handles.timers| then w.handles.timers[i] else BirthOf(Apply(w, es[0]), es[1..], i)
  }

  // The events of a run that concern timer i, from its making.
  function LifeOf(w: World, es: seq<Event>, i: nat): seq<TimerSpec.Event>
    requires IsLegal(w, es)
    decreases |es|
  {
    if es == [] then []
    else
      var later := LifeOf(Apply(w, es[0]), es[1..], i);
      if i < |w.handles.timers| && EventFor(es[0], i).Some? then [EventFor(es[0], i).value] + later else later
  }

  lemma {:induction false} LifeIsLegal(w: World, es: seq<Event>, i: nat)
    requires IsLegal(w, es) && i < |Run(w, es).handles.timers|
    ensures TimerSpec.IsLegal(BirthOf(w, es, i), LifeOf(w, es, i))
    ensures TimerSpec.Run(BirthOf(w, es, i), LifeOf(w, es, i)) == Run(w, es).handles.timers[i]
    ensures i >= |w.handles.timers| ==> IsNew(BirthOf(w, es, i))
    decreases |es|
  {
    hide Enabled, Apply, EventFor, IsNew, TimerSpec.Apply, TimerSpec.Enabled;
    if es != [] {
      var w' := Apply(w, es[0]);
      TimersOfAStep(w, es[0], i);
      LifeIsLegal(w', es[1..], i);
      if i < |w.handles.timers| {
        TimersStay(w', es[1..]);
        assert BirthOf(w', es[1..], i) == w'.handles.timers[i];
        if EventFor(es[0], i).Some? {
          assert LifeOf(w, es, i)[1..] == LifeOf(w', es[1..], i);
        }
      } else if i < |w'.handles.timers| {
        assert BirthOf(w', es[1..], i) == w'.handles.timers[i];
      }
    }
  }

  lemma {:induction false} TimersStay(w: World, es: seq<Event>)
    requires IsLegal(w, es)
    ensures |w.handles.timers| <= |Run(w, es).handles.timers|
    decreases |es|
  {
    hide Enabled, Apply;
    if es != [] {
      TimersOfAStep(w, es[0], 0);
      TimersStay(Apply(w, es[0]), es[1..]);
    }
  }

  // Every timer of every reachable state was made by Timer.new or PeriodicTimer.new, and has
  // lived since a life that libuv and the program can give a timer.
  lemma EveryTimerHasALife(w: World, es: seq<Event>, i: nat)
    requires IsReached(w, es) && i < |w.handles.timers|
    ensures IsNew(BirthOf(INITIAL, es, i))
    ensures TimerSpec.IsLegal(BirthOf(INITIAL, es, i), LifeOf(INITIAL, es, i))
    ensures TimerSpec.Run(BirthOf(INITIAL, es, i), LifeOf(INITIAL, es, i)) == w.handles.timers[i]
  {
    LifeIsLegal(INITIAL, es, i);
  }

  // In any run a one-shot timer calls its proc at most once, and is closed when it has.
  lemma OneShotFiresOnce(w: World, es: seq<Event>, i: nat)
    requires IsReached(w, es) && i < |w.handles.timers| && !w.handles.timers[i].periodic
    ensures w.handles.timers[i].fires <= 1
    ensures w.handles.timers[i].fires == 1 ==> !w.handles.timers[i].open
  {
    ReachedFits(w, es);
  }

  // In any run, once pause has returned true on a timer, its proc is not called before a
  // restart of that timer, whatever the rest of the reactor does.
  lemma PausedDoesNotFire(w: World, before: seq<Event>, i: nat, after: seq<Event>)
    requires IsReached(w, before) && i < |w.handles.timers| && UserRuns(w)
    requires TimerSpec.Perform(w.handles.timers[i], TimerSpec.DoPause(true)).ret == TimerSpec.True
    requires IsLegal(Apply(w, TimerCall(i, TimerSpec.DoPause(true))), after)
    requires var life := LifeOf(Apply(w, TimerCall(i, TimerSpec.DoPause(true))), after, i);
      forall n | 0 <= n < |life| :: !TimerSpec.IsRestart(life[n])
    ensures var w' := Run(Apply(w, TimerCall(i, TimerSpec.DoPause(true))), after);
      i < |w'.handles.timers| && w'.handles.timers[i].fires == w.handles.timers[i].fires
  {
    var pause := TimerCall(i, TimerSpec.DoPause(true));
    var w1 := Apply(w, pause);
    ReachedFits(w, before);
    TimersOfAStep(w, pause, i);
    TimersStay(w1, after);
    LifeIsLegal(w1, after, i);
    assert BirthOf(w1, after, i) == w1.handles.timers[i];
    TimerSpec.PausedDoesNotFire(w.handles.timers[i], LifeOf(w1, after, i));
  }

  // In any run, libuv times a timer by its stored delay and interval if it could start it
  // when it was made and at each restart.
  lemma StartsUseTheDelays(w: World, es: seq<Event>, i: nat)
    requires IsReached(w, es) && i < |w.handles.timers|
    requires BirthOf(INITIAL, es, i).open
    requires var life := LifeOf(INITIAL, es, i);
      forall n | 0 <= n < |life| :: !TimerSpec.StartsFail(life[n])
    ensures TimerSpec.IsInStep(w.handles.timers[i])
  {
    EveryTimerHasALife(w, es, i);
    NewTimerFits(BirthOf(INITIAL, es, i));
    TimerSpec.StartsUseTheDelays(BirthOf(INITIAL, es, i), LifeOf(INITIAL, es, i));
  }

  lemma NewTimerFits(t: TimerSpec.Timer)
    requires IsNew(t)
    ensures TimerSpec.Inv(t)
    ensures t.open ==> TimerSpec.IsInStep(t)
  {
  }
}
