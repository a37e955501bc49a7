/**
  What each call and each event brings about on a timer, told by what was asked for and by
  the events of its life alone: the times libuv is given, when it can fire, how often it has,
  and what each method answers.
 */
module TimerEffects {
  import opened Wrappers
  import opened TimerSpec

  function Max(a: int, b: int): int {
    if a < b then b else a
  }

  // -------- lives, from their end --------

  lemma {:induction false} LastStep(t: Timer, es: seq<Event>)
    requires IsLegal(t, es) && es != []
    ensures var before := es[..|es| - 1];
      && IsLegal(t, before)
      && Enabled(Run(t, before), es[|es| - 1])
      && Run(t, es) == Apply(Run(t, before), es[|es| - 1])
    decreases |es|
  {
    hide Enabled, Apply;
    var before, last := es[..|es| - 1], es[|es| - 1];
    if |es| == 1 {
      assert before == [] && es[1..] == [];
    } else {
      LastStep(Apply(t, es[0]), es[1..]);
      assert es[1..][..|es| - 2] == before[1..];
    }
  }

  lemma {:induction false} RunConcat(t: Timer, es: seq<Event>, later: seq<Event>)
    requires IsLegal(t, es + later)
    ensures IsLegal(t, es) && IsLegal(Run(t, es), later)
    ensures Run(t, es + later) == Run(Run(t, es), later)
    decreases |es|
  {
    hide Enabled, Apply;
    if es == [] {
      assert es + later == later;
    } else {
      assert (es + later)[1..] == es[1..] + later;
      RunConcat(Apply(t, es[0]), es[1..], later);
    }
  }

  // -------- open, running, fired --------

  // The events that close the handle: a one-shot timer closes itself when it fires.
  predicate IsClosing(periodic: bool, e: Event) {
    e.DoClose? || e.DoDestroy? || (e.UvFires? && !periodic)
  }

  predicate HasClosing(periodic: bool, es: seq<Event>) {
    exists e | e in es :: IsClosing(periodic, e)
  }

  // An accepted start, and an accepted pause.
  predicate Starts(e: Event) {
    IsRestart(e) && e.ok
  }

  predicate Stops(e: Event) {
    e.DoPause? && e.ok
  }

  // Every pause has been followed by a restart.
  predicate IsResumed(es: seq<Event>) {
    forall i | 0 <= i < |es| && Stops(es[i]) :: exists j :: i < j < |es| && Starts(es[j])
  }

  function Fires(es: seq<Event>): nat {
    if es == [] then 0 else Fires(es[..|es| - 1]) + (if es[|es| - 1].UvFires? then 1 else 0)
  }

  lemma ClosingSnoc(periodic: bool, es: seq<Event>, e: Event)
    ensures HasClosing(periodic, es + [e]) <==> HasClosing(periodic, es) || IsClosing(periodic, e)
  {
    hide IsClosing;
    assert forall x :: x in es + [e] <==> x in es || x == e;
    if HasClosing(periodic, es) {
      var x :| x in es && IsClosing(periodic, x);
      assert x in es + [e];
    }
    assert e in es + [e];
  }

  lemma ResumedSnoc(es: seq<Event>, e: Event)
    ensures IsResumed(es + [e]) <==> Starts(e) || (IsResumed(es) && !Stops(e))
  {
    hide Starts, Stops;
    StartsOrStops(e);
    var es' := es + [e];
    assert es'[|es|] == e && forall i | 0 <= i < |es| :: es'[i] == es[i];
    if Starts(e) {
      forall i | 0 <= i < |es'| && Stops(es'[i])
        ensures exists j :: i < j < |es'| && Starts(es'[j])
      {
        assert i < |es| && Starts(es'[|es|]);
      }
    } else if IsResumed(es') {
      assert !Stops(es'[|es|]);
      forall i | 0 <= i < |es| && Stops(es[i])
        ensures exists j :: i < j < |es| && Starts(es[j])
      {
        assert Stops(es'[i]);
        var j :| i < j < |es'| && Starts(es'[j]);
        assert Starts(es[j]);
      }
    } else if IsResumed(es) && !Stops(e) {
      forall i | 0 <= i < |es'| && Stops(es'[i])
        ensures exists j :: i < j < |es'| && Starts(es'[j])
      {
        assert Stops(es[i]);
        var j :| i < j < |es| && Starts(es[j]);
        assert Starts(es'[j]);
      }
    }
  }

  lemma StartsOrStops(e: Event)
    ensures !(Starts(e) && Stops(e))
  {
  }

  // A timer just made and started.
  predicate IsFresh(t: Timer) {
    Inv(t) && t.open && t.uv.active && t.fires == 0 && !t.uv.closed && (t.periodic ==> t.uv.repeat >= 1)
  }

  lemma NewIsFresh(delay: int, interval: int, first: Option<int>)
    ensures IsFresh(New(delay, true)) && !New(delay, true).periodic
    ensures IsFresh(NewPeriodic(interval, first, true)) && NewPeriodic(interval, first, true).periodic
    ensures !New(delay, false).open && !NewPeriodic(interval, first, false).open
  {
  }

  // One step, for the handle, the running and the firing.
  predicate Moves(t: Timer, e: Event, t': Timer) {
    && t'.periodic == t.periodic
    && (t'.open <==> t.open && !IsClosing(t.periodic, e))
    && (t'.uv.active <==> t.open && !IsClosing(t.periodic, e) && (Starts(e) || (t.uv.active && !Stops(e))))
    && t'.fires == t.fires + (if e.UvFires? then 1 else 0)
    && (t'.uv.closed <==> t.uv.closed || e.UvCloses?)
    && (t'.open && t.periodic ==> t'.uv.repeat >= 1)
  }

  lemma StepMoves(t: Timer, e: Event)
    requires Inv(t) && Enabled(t, e) && (t.open && t.periodic ==> t.uv.repeat >= 1)
    ensures Moves(t, e, Apply(t, e))
  {
  }

  predicate IsTold(start: Timer, es: seq<Event>, t: Timer) {
    && t.periodic == start.periodic
    && (t.open <==> !HasClosing(start.periodic, es))
    && (t.uv.active <==> !HasClosing(start.periodic, es) && IsResumed(es))
    && t.fires == Fires(es)
    && (t.uv.closed <==> UvCloses in es)
    && (t.open && t.periodic ==> t.uv.repeat >= 1)
  }

  lemma StepIsTold(start: Timer, es: seq<Event>, t: Timer, e: Event, t': Timer)
    requires IsTold(start, es, t) && Moves(t, e, t')
    ensures IsTold(start, es + [e], t')
  {
    ClosingSnoc(start.periodic, es, e);
    ResumedSnoc(es, e);
    assert (es + [e])[..|es|] == es;
    assert forall x :: x in es + [e] <==> x in es || x == e;
    hide HasClosing, IsResumed, IsClosing, Starts, Stops;
  }

  lemma {:induction false} LifeIsTold(t: Timer, es: seq<Event>)
    requires IsFresh(t) && IsLegal(t, es)
    ensures IsTold(t, es, Run(t, es))
    decreases |es|
  {
    hide Enabled, Apply, Moves, HasClosing, IsClosing, Inv;
    if es != [] {
      LastStep(t, es);
      var before, last := es[..|es| - 1], es[|es| - 1];
      LifeIsTold(t, before);
      FreshFits(t);
      RunKeeps(t, before);
      StepMoves(Run(t, before), last);
      StepIsTold(t, before, Run(t, before), last, Run(t, es));
      assert before + [last] == es;
    } else {
      FreshIsTold(t);
    }
  }

  lemma FreshIsTold(t: Timer)
    requires IsFresh(t)
    ensures IsTold(t, [], t)
  {
  }

  lemma FreshFits(t: Timer)
    requires IsFresh(t)
    ensures Inv(t)
  {
  }

  // The handle is open exactly until a close, a destroy, or the firing of a one-shot; libuv
  // can fire the timer exactly while the handle is open and every accepted pause has been
  // followed by an accepted restart; and the proc is called once each time it fires.
  lemma FiresUntilStopped(t: Timer, es: seq<Event>)
    requires IsFresh(t) && IsLegal(t, es)
    ensures Run(t, es).open <==> !HasClosing(t.periodic, es)
    ensures Enabled(Run(t, es), UvFires) <==> !HasClosing(t.periodic, es) && IsResumed(es)
    ensures Run(t, es).fires == Fires(es)
    ensures Enabled(Run(t, es), UvCloses) <==> HasClosing(t.periodic, es) && UvCloses !in es
  {
    LifeIsTold(t, es);
    FreshFits(t);
    RunKeeps(t, es);
    hide HasClosing, IsResumed, Fires, Apply;
  }

  // -------- what the methods answer --------

  // Every method answers false exactly on a closed timer, and raises exactly when libuv
  // refuses; a closed timer is left as it is.
  lemma CallsAnswer(t: Timer, es: seq<Event>, e: Event)
    requires IsFresh(t) && IsLegal(t, es) && Enabled(Run(t, es), e) && !IsUv(e)
    ensures var (o, closed) := (Perform(Run(t, es), e), HasClosing(t.periodic, es));
      && (o.ret.False? <==> closed)
      && (o.ret.Raised? <==> !closed && !e.DoClose? && !e.DoDestroy? && !e.ok)
      && (closed ==> o.next == Run(t, es))
  {
    LifeIsTold(t, es);
    hide HasClosing, IsResumed, Fires;
  }

  // -------- the times --------

  lemma {:induction false} NoRestartKeepsTheTimes(t: Timer, es: seq<Event>)
    requires IsLegal(t, es) && forall i | 0 <= i < |es| :: !IsRestart(es[i])
    ensures var t' := Run(t, es);
      && t'.delay == t.delay && t'.interval == t.interval && t'.periodic == t.periodic
      && t'.uv.timeout == t.uv.timeout && t'.uv.repeat == t.uv.repeat
    decreases |es|
  {
    if es != [] {
      assert !IsRestart(es[0]);
      NoRestartKeepsTheTimes(Apply(t, es[0]), es[1..]);
    }
  }

  // A Timer made with a delay of d ms is timed at the larger of d and 1, and does not repeat.
  lemma TimerIsTimedAsAsked(delay: int, ok: bool, es: seq<Event>)
    requires IsLegal(New(delay, ok), es) && forall i | 0 <= i < |es| :: !IsRestart(es[i])
    ensures var t := Run(New(delay, ok), es);
      && t.delay == Max(delay, 1) && t.interval == 0 && !t.periodic
      && (ok ==> t.uv.timeout == Max(delay, 1) && t.uv.repeat == 0)
  {
    NoRestartKeepsTheTimes(New(delay, ok), es);
    hide Run, IsLegal, Perform;
  }

  // A PeriodicTimer made with an interval of i ms repeats at the larger of i and 1. Its first
  // delay is the one given, at least 1, or else the interval.
  lemma PeriodicTimerIsTimedAsAsked(interval: int, first: Option<int>, ok: bool, es: seq<Event>)
    requires IsLegal(NewPeriodic(interval, first, ok), es) && forall i | 0 <= i < |es| :: !IsRestart(es[i])
    ensures var t := Run(NewPeriodic(interval, first, ok), es);
      && t.interval == Max(interval, 1) && t.periodic
      && t.delay == Max(if first.Some? then first.value else interval, 1)
      && (ok ==> t.uv.timeout == t.delay && t.uv.repeat == t.interval)
  {
    NoRestartKeepsTheTimes(NewPeriodic(interval, first, ok), es);
    hide Run, IsLegal, Perform;
  }

  // After a restart of an open Timer, and until the next one, the stored delay is the one
  // given, at least 1, or else the one before; libuv times by it if the start succeeded, and
  // as before if not.
  lemma RestartLasts(t: Timer, before: seq<Event>, delay: Option<int>, ok: bool, after: seq<Event>)
    requires IsFresh(t) && !HasClosing(t.periodic, before)
    requires IsLegal(t, before + [DoRestart(delay, ok)] + after)
    requires forall i | 0 <= i < |after| :: !IsRestart(after[i])
    ensures IsLegal(t, before)
    ensures var (s, s') := (Run(t, before), Run(t, before + [DoRestart(delay, ok)] + after));
      && s'.delay == (if delay.Some? then Max(delay.value, 1) else s.delay)
      && s'.interval == s.interval
      && (ok ==> s'.uv.timeout == s'.delay && s'.uv.repeat == 0)
      && (!ok ==> s'.uv.timeout == s.uv.timeout && s'.uv.repeat == s.uv.repeat)
  {
    hide HasClosing;
    RestartSplits(t, before, DoRestart(delay, ok), after);
  }

  // The same for a PeriodicTimer: a delay given without an interval is ignored, and an
  // interval given without a delay is the delay too.
  lemma RestartPeriodicLasts(t: Timer, before: seq<Event>, interval: Option<int>, delay: Option<int>, ok: bool,
                             after: seq<Event>)
    requires IsFresh(t) && !HasClosing(t.periodic, before)
    requires IsLegal(t, before + [DoRestartPeriodic(interval, delay, ok)] + after)
    requires forall i | 0 <= i < |after| :: !IsRestart(after[i])
    ensures IsLegal(t, before)
    ensures var (s, s') := (Run(t, before), Run(t, before + [DoRestartPeriodic(interval, delay, ok)] + after));
      && s'.interval == (if interval.Some? then Max(interval.value, 1) else s.interval)
      && s'.delay ==
         (if interval.None? then s.delay else Max(if delay.Some? then delay.value else interval.value, 1))
      && (ok ==> s'.uv.timeout == s'.delay && s'.uv.repeat == s'.interval)
      && (!ok ==> s'.uv.timeout == s.uv.timeout && s'.uv.repeat == s.uv.repeat)
  {
    hide HasClosing;
    RestartSplits(t, before, DoRestartPeriodic(interval, delay, ok), after);
  }

  lemma RestartSplits(t: Timer, before: seq<Event>, e: Event, after: seq<Event>)
    requires IsFresh(t) && !HasClosing(t.periodic, before)
    requires IsLegal(t, before + [e] + after) && forall i | 0 <= i < |after| :: !IsRestart(after[i])
    ensures IsLegal(t, before) && Run(t, before).open
    ensures var (s1, s') := (Apply(Run(t, before), e), Run(t, before + [e] + after));
      && s'.delay == s1.delay && s'.interval == s1.interval
      && s'.uv.timeout == s1.uv.timeout && s'.uv.repeat == s1.uv.repeat
  {
    hide Enabled, Apply, HasClosing, IsFresh;
    RunConcat(t, before + [e], after);
    assert (before + [e])[..|before|] == before;
    LastStep(t, before + [e]);
    NoRestartKeepsTheTimes(Run(t, before + [e]), after);
    ToldOpen(t, before);
  }

  lemma ToldOpen(t: Timer, es: seq<Event>)
    requires IsFresh(t) && IsLegal(t, es) && !HasClosing(t.periodic, es)
    ensures Run(t, es).open
  {
    LifeIsTold(t, es);
  }
}
