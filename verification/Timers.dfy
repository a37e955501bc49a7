/**
  ext/asyncengine/ae_timer.c as it is written: a timer whose fields its callback and methods
  update one after another. Each is proved to do what TimerSpec says it does.
 */
module Timers {
  import opened Wrappers
  import opened TimerSpec

  class TimerHandle {
    var open: bool        // _uv_handle != NULL
    var periodic: bool
    var delay: int
    var interval: int
    var uv: UvTimer
    var stored: bool
    var fires: nat

    ghost function State(): Timer
      reads this
    {
      Timer(open, periodic, delay, interval, uv, stored, fires)
    }

    ghost predicate Valid()
      reads this
    {
      Inv(State())
    }

    // The rest of init_instance, once uv_timer_init has succeeded.
    constructor (delay: int, interval: int, ok: bool)
      requires delay >= 1 && interval >= 0
      ensures Valid() && State() == Created(delay, interval, ok)
    {
      open, this.delay, this.interval := true, delay, interval;
      if interval != 0 {
        periodic := true;
      } else {
        periodic := false;
      }
      uv, stored, fires := UvTimer(false, 0, 0, 0, false), true, 0;
      new;
      var failed := UvTimerStart(delay, interval, ok);
      if failed {
        CloseCdataHandle();
      }
    }

    // -------- libuv --------

    method UvTimerStart(timeout: int, repeat: int, ok: bool) returns (failed: bool)
      requires uv.closes == 0
      modifies this`uv
      ensures failed == !ok
      ensures uv == if ok then old(uv).(active := true, timeout := timeout, repeat := repeat) else old(uv)
    {
      if ok {
        uv := uv.(active := true, timeout := timeout, repeat := repeat);
      }
      failed := !ok;
    }

    method UvTimerStop(ok: bool) returns (failed: bool)
      requires uv.closes == 0
      modifies this`uv
      ensures failed == !ok
      ensures uv == if ok then old(uv).(active := false) else old(uv)
    {
      if ok {
        uv := uv.(active := false);
      }
      failed := !ok;
    }

    // -------- ae_timer.c --------

    // close_handle.
    method CloseCdataHandle()
      requires uv.closes == 0
      modifies this
      ensures State() == CloseHandle(old(State()))
    {
      uv := uv.(active := false, closes := uv.closes + 1);
      open := false;
      stored := false;
    }

    method TimerCallback()
      requires Valid() && Enabled(State(), UvFires)
      modifies this
      ensures Valid() && State() == Apply(old(State()), UvFires)
    {
      StepKeeps(State(), UvFires);
      uv := uv.(active := uv.repeat != 0);
      if !periodic {
        CloseCdataHandle();
      }
      fires := fires + 1;
    }

    method Pause(ok: bool) returns (ret: Ret)
      requires Valid()
      modifies this
      ensures Valid() && Outcome(State(), ret) == Perform(old(State()), DoPause(ok))
    {
      StepKeeps(State(), DoPause(ok));
      if !open {
        return False;
      }
      var failed := UvTimerStop(ok);
      if failed {
        return Raised;
      }
      return True;
    }

    method Restart(newDelay: Option<int>, ok: bool) returns (ret: Ret)
      requires Valid() && !periodic
      modifies this
      ensures Valid() && Outcome(State(), ret) == Perform(old(State()), DoRestart(newDelay, ok))
    {
      StepKeeps(State(), DoRestart(newDelay, ok));
      if !open {
        return False;
      }
      if newDelay.Some? {
        delay := newDelay.value;
        if delay < 1 {
          delay := 1;
        }
      }
      var failed := UvTimerStart(delay, 0, ok);
      if failed {
        return Raised;
      }
      return True;
    }

    method RestartPeriodic(newInterval: Option<int>, newDelay: Option<int>, ok: bool) returns (ret: Ret)
      requires Valid() && periodic
      modifies this
      ensures Valid()
      ensures Outcome(State(), ret) == Perform(old(State()), DoRestartPeriodic(newInterval, newDelay, ok))
    {
      StepKeeps(State(), DoRestartPeriodic(newInterval, newDelay, ok));
      if !open {
        return False;
      }
      if newInterval.Some? {
        interval := newInterval.value;
        if interval < 1 {
          interval := 1;
        }
        if newDelay.Some? {
          delay := newDelay.value;
          if delay < 1 {
            delay := 1;
          }
        } else {
          delay := interval;
        }
      }
      var failed := UvTimerStart(delay, interval, ok);
      if failed {
        return Raised;
      }
      return True;
    }

    method Close() returns (ret: Ret)
      requires Valid()
      modifies this
      ensures Valid() && Outcome(State(), ret) == Perform(old(State()), DoClose)
    {
      StepKeeps(State(), DoClose);
      if !open {
        return False;
      }
      CloseCdataHandle();
      return True;
    }

    method Destroy() returns (ret: Ret)
      requires Valid()
      modifies this
      ensures Valid() && Outcome(State(), ret) == Perform(old(State()), DoDestroy)
    {
      StepKeeps(State(), DoDestroy);
      if !open {
        return False;
      }
      CloseCdataHandle();
      return True;
    }
  }

  // init_instance: no timer when uv_timer_init fails; else one that runs, or, when it cannot
  // be started, one that is closed again. The caller raises unless it runs.
  method InitInstance(delay: int, interval: int, initOk: bool, startOk: bool) returns (timer: TimerHandle?)
    requires delay >= 1 && interval >= 0
    ensures timer == null <==> !initOk
    ensures timer != null ==>
      && fresh(timer) && timer.Valid() && timer.State() == Created(delay, interval, startOk)
      && timer.uv.closes == (if startOk then 0 else 1) && timer.stored == startOk && timer.uv.active == startOk
  {
    if !initOk {
      return null;
    }
    timer := new TimerHandle(delay, interval, startOk);
  }
}
