/**
  One Timer or PeriodicTimer of ext/asyncengine/ae_timer.c: the struct_cdata fields, the
  uv_timer_t, and how often its proc was called. Times are in milliseconds, as they are after
  the conversion from seconds.
 */
module TimerSpec {
  import opened Wrappers

  // The uv_timer_t: whether it runs, the timeout and the repeat value of its last start, calls
  // of uv_close, and whether its close callback has run.
  datatype UvTimer = UvTimer(active: bool, timeout: int, repeat: int, closes: nat, closed: bool)

  datatype Timer = Timer(
    open: bool,         // _uv_handle is not NULL
    periodic: bool,
    delay: int,
    interval: int,
    uv: UvTimer,
    stored: bool,       // @_handles holds the timer
    fires: nat          // calls of on_fire_proc
  )

  datatype Ret = True | False | Raised

  datatype Outcome = Outcome(next: Timer, ret: Ret)

  function AtLeast1(ms: int): int {
    if ms < 1 then 1 else ms
  }

  // uv_timer_start.
  function Start(t: Timer, repeat: int): Timer {
    t.(uv := t.uv.(active := true, timeout := t.delay, repeat := repeat))
  }

  function CloseHandle(t: Timer): Timer {
    t.(open := false, stored := false, uv := t.uv.(active := false, closes := t.uv.closes + 1))
  }

  // init_instance; `ok` is whether uv_timer_start succeeds.
  function Created(delay: int, interval: int, ok: bool): Timer {
    var t := Timer(true, interval != 0, delay, interval, UvTimer(false, 0, 0, 0, false), true, 0);
    if ok then Start(t, interval) else CloseHandle(t)
  }

  // Timer.new and PeriodicTimer.new.
  function New(delay: int, ok: bool): Timer {
    Created(AtLeast1(delay), 0, ok)
  }

  function NewPeriodic(interval: int, delay: Option<int>, ok: bool): Timer {
    var i := AtLeast1(interval);
    Created(if delay.Some? then AtLeast1(delay.value) else i, i, ok)
  }

  // libuv stops a timer, or starts it again when it repeats, and then calls back.
  function Fire(t: Timer): Timer {
    var t1 := t.(uv := t.uv.(active := t.uv.repeat != 0));
    var t2 := if t1.periodic then t1 else CloseHandle(t1);
    t2.(fires := t2.fires + 1)
  }

  function UvClosed(t: Timer): Timer {
    t.(uv := t.uv.(closed := true))
  }

  // -------- methods; `ok` is whether the libuv call inside succeeds --------

  function Pause(t: Timer, ok: bool): Outcome {
    if !t.open then Outcome(t, False)
    else if !ok then Outcome(t, Raised)
    else Outcome(t.(uv := t.uv.(active := false)), True)
  }

  function Restart(t: Timer, delay: Option<int>, ok: bool): Outcome {
    if !t.open then Outcome(t, False)
    else
      var t1 := if delay.Some? then t.(delay := AtLeast1(delay.value)) else t;
      if ok then Outcome(Start(t1, 0), True) else Outcome(t1, Raised)
  }

  // A delay given without an interval is ignored.
  function RestartPeriodic(t: Timer, interval: Option<int>, delay: Option<int>, ok: bool): Outcome {
    if !t.open then Outcome(t, False)
    else
      var t1 :=
        if interval.None? then t
        else
          var i := AtLeast1(interval.value);
          t.(interval := i, delay := if delay.Some? then AtLeast1(delay.value) else i);
      if ok then Outcome(Start(t1, t1.interval), True) else Outcome(t1, Raised)
  }

  // close and destroy.
  function Close(t: Timer): Outcome {
    if !t.open then Outcome(t, False) else Outcome(CloseHandle(t), True)
  }

  // -------- one step --------

  datatype Event =
    // from libuv
    | UvFires
    | UvCloses
    // calls from Ruby
    | DoPause(ok: bool)
    | DoRestart(delay: Option<int>, ok: bool)
    | DoRestartPeriodic(interval: Option<int>, newDelay: Option<int>, ok: bool)
    | DoClose
    | DoDestroy

  predicate IsUv(e: Event) {
    e.UvFires? || e.UvCloses?
  }

  function Perform(t: Timer, e: Event): Outcome {
    match e
    case UvFires => Outcome(Fire(t), True)
    case UvCloses => Outcome(UvClosed(t), True)
    case DoPause(ok) => Pause(t, ok)
    case DoRestart(delay, ok) => Restart(t, delay, ok)
    case DoRestartPeriodic(interval, delay, ok) => RestartPeriodic(t, interval, delay, ok)
    case DoClose => Close(t)
    case DoDestroy => Close(t)
  }

  function Apply(t: Timer, e: Event): Timer {
    Perform(t, e).next
  }

  // A timer fires only while libuv runs it; each class has its own restart.
  predicate Enabled(t: Timer, e: Event) {
    match e
    case UvFires => t.uv.active && t.uv.closes == 0
    case UvCloses => t.uv.closes > 0 && !t.uv.closed
    case DoRestart(_, _) => !t.periodic
    case DoRestartPeriodic(_, _, _) => t.periodic
    case _ => true
  }

  predicate Inv(t: Timer) {
    && t.uv.closes == (if t.open then 0 else 1)
    && (t.stored <==> t.open)
    && (t.uv.active ==> t.open)
    && (t.uv.closed ==> !t.open)
    && t.delay >= 1
    && t.interval >= 0
    && (t.periodic <==> t.interval >= 1)
    && (!t.periodic ==> t.uv.repeat == 0 && t.fires <= 1 && (t.open ==> t.fires == 0))
  }

  lemma NewKeeps(interval: int, delay: Option<int>, ok: bool)
    ensures Inv(NewPeriodic(interval, delay, ok))
    ensures delay.Some? ==> Inv(New(delay.value, ok))
  {
  }

  // Every step, of libuv or of the program, keeps the invariant.
  lemma StepKeeps(t: Timer, e: Event)
    requires Inv(t) && Enabled(t, e)
    ensures Inv(Apply(t, e))
    ensures Apply(t, e).periodic == t.periodic
  {
  }

  // -------- whole lives --------

  function Run(t: Timer, es: seq<Event>): Timer
    decreases |es|
  {
    if es == [] then t else Run(Apply(t, es[0]), es[1..])
  }

  predicate IsLegal(t: Timer, es: seq<Event>)
    decreases |es|
  {
    es == [] || (Enabled(t, es[0]) && IsLegal(Apply(t, es[0]), es[1..]))
  }

  lemma {:induction false} RunKeeps(t: Timer, es: seq<Event>)
    requires Inv(t) && IsLegal(t, es)
    ensures Inv(Run(t, es)) && Run(t, es).periodic == t.periodic
    decreases |es|
  {
    if es != [] {
      StepKeeps(t, es[0]);
      RunKeeps(Apply(t, es[0]), es[1..]);
    }
  }

  // In any life of a timer: one handle closed at most once and held by @_handles until then;
  // a delay of at least a millisecond; a one-shot calls its proc at most once, and only a
  // PeriodicTimer has an interval.
  lemma LifeOfATimer(delay: int, ok: bool, es: seq<Event>)
    requires IsLegal(New(delay, ok), es)
    ensures var t := Run(New(delay, ok), es);
      && t.fires <= 1 && t.interval == 0 && t.delay >= 1
      && t.uv.closes == (if t.open then 0 else 1) && (t.stored <==> t.open)
      && (t.fires == 1 ==> !t.open)
  {
    NewKeeps(1, Some(delay), ok);
    RunKeeps(New(delay, ok), es);
  }

  lemma LifeOfAPeriodicTimer(interval: int, delay: Option<int>, ok: bool, es: seq<Event>)
    requires IsLegal(NewPeriodic(interval, delay, ok), es)
    ensures var t := Run(NewPeriodic(interval, delay, ok), es);
      && t.interval >= 1 && t.delay >= 1
      && t.uv.closes == (if t.open then 0 else 1) && (t.stored <==> t.open)
  {
    NewKeeps(interval, delay, ok);
    RunKeeps(NewPeriodic(interval, delay, ok), es);
  }

  predicate IsRestart(e: Event) {
    e.DoRestart? || e.DoRestartPeriodic?
  }

  // A timer that libuv does not run, because it was paused or closed, calls nothing until a
  // restart; a closed one not even then.
  lemma {:induction false} StoppedDoesNotFire(t: Timer, es: seq<Event>)
    requires Inv(t) && IsLegal(t, es) && !t.uv.active
    requires t.open ==> forall i | 0 <= i < |es| :: !IsRestart(es[i])
    ensures Run(t, es).fires == t.fires
    decreases |es|
  {
    if es != [] {
      StepKeeps(t, es[0]);
      assert !Apply(t, es[0]).uv.active;
      StoppedDoesNotFire(Apply(t, es[0]), es[1..]);
    }
  }

  // So after pause has returned true, or close or destroy.
  lemma PausedDoesNotFire(t: Timer, es: seq<Event>)
    requires Inv(t) && Perform(t, DoPause(true)).ret == True && IsLegal(Apply(t, DoPause(true)), es)
    requires forall i | 0 <= i < |es| :: !IsRestart(es[i])
    ensures Run(Apply(t, DoPause(true)), es).fires == t.fires
  {
    StoppedDoesNotFire(Apply(t, DoPause(true)), es);
  }

  lemma ClosedDoesNotFire(t: Timer, es: seq<Event>)
    requires Inv(t) && IsLegal(Apply(t, DoClose), es)
    ensures Run(Apply(t, DoClose), es).fires == t.fires
    ensures Apply(t, DoClose) == Apply(t, DoDestroy)
  {
    StepKeeps(t, DoClose);
    StoppedDoesNotFire(Apply(t, DoClose), es);
  }

  predicate StartsFail(e: Event) {
    (e.DoRestart? || e.DoRestartPeriodic?) && !e.ok
  }

  // libuv was last started with the stored delay and interval.
  predicate IsInStep(t: Timer) {
    t.uv.timeout == t.delay && t.uv.repeat == t.interval
  }

  // While every start succeeds, libuv times the timer by the stored delay and interval, ...
  lemma {:induction false} StartsUseTheDelays(t: Timer, es: seq<Event>)
    requires Inv(t) && IsLegal(t, es) && IsInStep(t)
    requires forall i | 0 <= i < |es| :: !StartsFail(es[i])
    ensures IsInStep(Run(t, es))
    decreases |es|
  {
    if es != [] {
      StepKeeps(t, es[0]);
      StartsUseTheDelays(Apply(t, es[0]), es[1..]);
    }
  }

  // ... from its making on.
  lemma NewIsInStep(interval: int, delay: Option<int>)
    ensures IsInStep(NewPeriodic(interval, delay, true))
    ensures delay.Some? ==> IsInStep(New(delay.value, true))
  {
  }

  // restart(i) is restart(i, i); restart(nil, d) is restart(); and restarting again without
  // arguments changes nothing.
  lemma RestartDefaults(t: Timer, interval: int, delay: Option<int>, ok: bool)
    ensures RestartPeriodic(t, Some(interval), None, ok) == RestartPeriodic(t, Some(interval), Some(interval), ok)
    ensures RestartPeriodic(t, None, delay, ok) == RestartPeriodic(t, None, None, ok)
    ensures var t' := RestartPeriodic(t, Some(interval), delay, true).next;
      RestartPeriodic(t', None, None, true).next == t'
  {
  }

  // After one restart libuv repeats at the stored interval exactly when the start succeeded
  // or the interval asked for is the one libuv had: a failed restart has already stored it.
  lemma RepeatAfterARestart(t: Timer, interval: Option<int>, delay: Option<int>, ok: bool)
    requires Inv(t) && t.open && t.periodic && t.uv.repeat == t.interval
    ensures var t' := RestartPeriodic(t, interval, delay, ok).next;
      t'.uv.repeat == t'.interval <==> ok || interval.None? || AtLeast1(interval.value) == t.interval
  {
  }

  // -------- what a closed timer still has to do --------

  function Work(t: Timer): nat {
    if t.uv.closed then 0 else 1
  }

  lemma ClosedStep(t: Timer, e: Event)
    requires Inv(t) && Enabled(t, e) && !t.open
    ensures IsUv(e) ==> Work(Apply(t, e)) == Work(t) - 1
    ensures !IsUv(e) ==> Perform(t, e) == Outcome(t, False)
  {
  }
}
