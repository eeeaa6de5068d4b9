/** Reset monitoring and the setup wait on the simulation clock: one current future and timer, and timer callbacks
    that may still fire after their wait is over. */
module ClockSync {
  import opened StatusMessages

  datatype FutureState = Waiting | Progressed | TimedOut | Cancelled

  /** A timer's callback has captured the future it was created for. */
  datatype Timer = Timer(future: nat, destroyed: nat)

  /** Every future and timer ever created, and which of them are current. */
  datatype Clock = Clock(
    open: bool, futures: seq<FutureState>, timers: seq<Timer>, future: Option<nat>, timer: Option<nat>,
    forwardJumps: nat, resets: seq<int>)

  const OPENED := Clock(true, [], [], None, None, 0, [])

  datatype ClockError = Closed | NotCleared | NotPrepared | BadTimeout

  predicate Done(c: Clock, f: nat)
    requires f < |c.futures|
  {
    !c.futures[f].Waiting?
  }

  predicate Bounded(c: Clock) {
    && (c.future.Some? ==> c.future.value < |c.futures|)
    && (c.timer.Some? ==> c.timer.value < |c.timers|)
    && forall t :: 0 <= t < |c.timers| ==> c.timers[t].future < |c.futures|
  }

  // ---------- the operations ----------

  function PrepareError(c: Clock): Option<ClockError> {
    if !c.open then Some(Closed) else if c.future.Some? then Some(NotCleared) else None
  }

  function Prepare(c: Clock): Clock {
    if PrepareError(c).Some? then c
    else c.(futures := c.futures + [Waiting], future := Some(|c.futures|))
  }

  function WaitError(c: Clock, timeoutOk: bool): Option<ClockError>
    requires Bounded(c)
  {
    if !c.open then Some(Closed)
    else if c.future == None || Done(c, c.future.value) || c.timer.Some? then Some(NotPrepared)
    else if !timeoutOk then Some(BadTimeout)
    else None
  }

  function StartWait(c: Clock, timeoutOk: bool): Clock
    requires Bounded(c)
  {
    if WaitError(c, timeoutOk).Some? then c
    else c.(timers := c.timers + [Timer(c.future.value, 0)], timer := Some(|c.timers|))
  }

  function Finish(fs: seq<FutureState>, f: nat, how: FutureState): seq<FutureState>
    requires f < |fs|
  {
    if fs[f].Waiting? then fs[f := how] else fs
  }

  function Clear(c: Clock): Clock
    requires Bounded(c)
  {
    c.(future := None, timer := None,
       futures := if c.future.Some? then Finish(c.futures, c.future.value, Cancelled) else c.futures,
       timers := if c.timer.Some?
                 then c.timers[c.timer.value := c.timers[c.timer.value].(destroyed := c.timers[c.timer.value].destroyed + 1)]
                 else c.timers)
  }

  /** A clock jump, delivered only while the callback is registered. */
  function Jump(c: Clock, delta: int, now: int): Clock
    requires Bounded(c)
  {
    if !c.open then c
    else if delta < 0 then c.(resets := c.resets + [now - delta])
    else if delta > 0 then
      var c' := c.(forwardJumps := c.forwardJumps + 1);
      if c.timer.Some? && c.future.Some? then c'.(futures := Finish(c.futures, c.future.value, Progressed)) else c'
    else c
  }

  /** A timer callback, current or stale, acts on the future it captured. */
  function Fire(c: Clock, t: nat): Clock
    requires Bounded(c) && t < |c.timers|
  {
    c.(futures := Finish(c.futures, c.timers[t].future, TimedOut))
  }

  function Close(c: Clock): Clock
    requires Bounded(c)
  {
    Clear(c.(open := false))
  }

  datatype ClockStep =
    | PrepareWait
    | WaitForProgress(timeoutOk: bool)
    | ClearWait
    | JumpBy(delta: int, now: int)
    | FireTimer(t: nat)
    | CloseSync

  predicate Enabled(c: Clock, step: ClockStep) {
    step.FireTimer? ==> step.t < |c.timers|
  }

  function Apply(c: Clock, step: ClockStep): Clock
    requires Bounded(c) && Enabled(c, step)
  {
    match step
    case PrepareWait => Prepare(c)
    case WaitForProgress(ok) => StartWait(c, ok)
    case ClearWait => Clear(c)
    case JumpBy(delta, now) => Jump(c, delta, now)
    case FireTimer(t) => Fire(c, t)
    case CloseSync => Close(c)
  }

  // ---------- the invariant ----------

  /** A current timer implies a current future, and it is that future's timer. */
  ghost predicate CurrentOk(c: Clock) {
    && Bounded(c)
    && (c.timer.Some? ==> c.future.Some? && c.timers[c.timer.value].future == c.future.value)
    && (c.future.Some? && c.timer == None ==> c.futures[c.future.value].Waiting?)
    && (!c.open ==> c.future == None)
  }

  /** Each timer is current or has been destroyed exactly once, and only current waits are unfinished. */
  ghost predicate LedgerOk(c: Clock)
    requires Bounded(c)
  {
    && (forall t :: 0 <= t < |c.timers| ==> c.timers[t].destroyed == if c.timer == Some(t) then 0 else 1)
    && (forall t :: 0 <= t < |c.timers| ==> c.future == Some(c.timers[t].future) ==> c.timer == Some(t))
    && (forall t, t' :: 0 <= t < t' < |c.timers| ==> c.timers[t].future != c.timers[t'].future)
    && (forall f :: 0 <= f < |c.futures| ==> c.future == Some(f) || !c.futures[f].Waiting?)
  }

  ghost predicate ClockInv(c: Clock) {
    CurrentOk(c) && LedgerOk(c)
  }

  lemma PrepareKeeps(c: Clock)
    requires ClockInv(c)
    ensures ClockInv(Prepare(c))
  {
  }

  lemma StartWaitKeeps(c: Clock, timeoutOk: bool)
    requires ClockInv(c)
    ensures ClockInv(StartWait(c, timeoutOk))
  {
  }

  lemma ClearKeeps(c: Clock)
    requires Bounded(c) && LedgerOk(c) && CurrentOk(c.(open := true))
    ensures ClockInv(Clear(c))
  {
    var c' := Clear(c);
    forall t | 0 <= t < |c'.timers| ensures c'.timers[t].destroyed == 1 && c'.timers[t].future == c.timers[t].future {
      assert c.timers[t].destroyed == if c.timer == Some(t) then 0 else 1;
    }
    forall f | 0 <= f < |c'.futures| ensures !c'.futures[f].Waiting? {
      assert c.future == Some(f) || !c.futures[f].Waiting?;
    }
  }

  /** Finishing a future keeps the invariant, if its wait has begun. */
  lemma FinishKeeps(c: Clock, f: nat, how: FutureState)
    requires ClockInv(c) && f < |c.futures| && !how.Waiting? && (c.future == Some(f) ==> c.timer.Some?)
    ensures ClockInv(c.(futures := Finish(c.futures, f, how)))
  {
  }

  lemma JumpKeeps(c: Clock, delta: int, now: int)
    requires ClockInv(c)
    ensures ClockInv(Jump(c, delta, now))
  {
    if c.open && delta > 0 && c.timer.Some? {
      FinishKeeps(c, c.future.value, Progressed);
    }
  }

  lemma FireKeeps(c: Clock, t: nat)
    requires ClockInv(c) && t < |c.timers|
    ensures ClockInv(Fire(c, t))
  {
    FinishKeeps(c, c.timers[t].future, TimedOut);
  }

  lemma CloseKeeps(c: Clock)
    requires ClockInv(c)
    ensures ClockInv(Close(c))
  {
    ClearKeeps(c.(open := false));
  }

  lemma StepKeepsClock(c: Clock, step: ClockStep)
    requires ClockInv(c) && Enabled(c, step)
    ensures ClockInv(Apply(c, step))
  {
    match step
    case PrepareWait => PrepareKeeps(c);
    case WaitForProgress(ok) => StartWaitKeeps(c, ok);
    case ClearWait => ClearKeeps(c);
    case CloseSync => CloseKeeps(c);
    case FireTimer(t) => FireKeeps(c, t);
    case JumpBy(delta, now) => JumpKeeps(c, delta, now);
  }

  ghost predicate ClockRun(states: seq<Clock>, steps: seq<ClockStep>) {
    && |states| == |steps| + 1 && states[0] == OPENED
    && forall i :: 0 <= i < |steps| ==>
         Bounded(states[i]) && Enabled(states[i], steps[i]) && states[i + 1] == Apply(states[i], steps[i])
  }

  /** In every run, stale callbacks included. */
  lemma {:induction false} ClockAlwaysOk(states: seq<Clock>, steps: seq<ClockStep>, n: nat)
    requires ClockRun(states, steps) && n < |states|
    ensures ClockInv(states[n])
  {
    if n > 0 {
      ClockAlwaysOk(states, steps, n - 1);
      StepKeepsClock(states[n - 1], steps[n - 1]);
    }
  }

  /** A finished future never changes again, and an unfinished one finishes exactly in the ways meant for it: by a forward
      jump after its own wait began, by its own timer, which is current, or by being released. */
  lemma FutureFinishesOnce(c: Clock, step: ClockStep, f: nat)
    requires ClockInv(c) && Enabled(c, step) && f < |c.futures|
    ensures var c' := Apply(c, step);
            && f < |c'.futures|
            && (!c.futures[f].Waiting? ==> c'.futures[f] == c.futures[f])
            && (c.futures[f].Waiting? ==>
                  && (c'.futures[f].Progressed? <==>
                        step.JumpBy? && step.delta > 0 && c.open && c.future == Some(f) && c.timer.Some?)
                  && (c'.futures[f].TimedOut? <==>
                        step.FireTimer? && c.timer == Some(step.t) && c.timers[step.t].future == f)
                  && (c'.futures[f].Cancelled? <==> (step.ClearWait? || step.CloseSync?) && c.future == Some(f)))
  {
  }

  /** While the callback is registered, a jump back from `before` to `now` reports `before`, and a jump forward counts;
      nothing else reports or counts. */
  lemma JumpReports(c: Clock, step: ClockStep, before: int, now: int)
    requires ClockInv(c) && Enabled(c, step) && (step.JumpBy? ==> step == JumpBy(now - before, now))
    ensures Apply(c, step).resets == c.resets + if step.JumpBy? && c.open && now < before then [before] else []
    ensures Apply(c, step).forwardJumps == c.forwardJumps + if step.JumpBy? && c.open && now > before then 1 else 0
  {
  }

  /** Over a whole run, a future that is finished keeps its outcome. */
  lemma {:induction false} OutcomeIsFinal(states: seq<Clock>, steps: seq<ClockStep>, i: nat, n: nat, f: nat)
    requires ClockRun(states, steps) && i <= n < |states|
    requires f < |states[i].futures| && !states[i].futures[f].Waiting?
    ensures f < |states[n].futures| && states[n].futures[f] == states[i].futures[f]
    decreases n
  {
    if n > i {
      OutcomeIsFinal(states, steps, i, n - 1, f);
      ClockAlwaysOk(states, steps, n - 1);
      FutureFinishesOnce(states[n - 1], steps[n - 1], f);
    }
  }

  /** A timer that is no longer current does nothing when it fires, so it cannot touch a later wait. */
  lemma StaleTimerIsHarmless(c: Clock, t: nat)
    requires ClockInv(c) && t < |c.timers| && c.timer != Some(t)
    ensures Fire(c, t) == c && c.timers[t].destroyed == 1
  {
  }

  // ---------- the class ----------

  class SimulationClockSync {
    var registered: bool
    var futures: seq<FutureState>
    var timers: seq<Timer>
    var future: Option<nat>
    var timer: Option<nat>
    var forwardJumps: nat
    var resets: seq<int>

    ghost function Abs(): Clock reads this {
      Clock(registered, futures, timers, future, timer, forwardJumps, resets)
    }

    ghost predicate Valid() reads this { ClockInv(Abs()) }

    constructor ()
      ensures Valid() && Abs() == OPENED
    {
      registered := true;
      futures, timers := [], [];
      future, timer := None, None;
      forwardJumps, resets := 0, [];
    }

    method PrepareWait() returns (error: Option<ClockError>)
      requires Valid()
      modifies this
      ensures Valid() && Abs() == Apply(old(Abs()), ClockStep.PrepareWait)
      ensures error == if !old(registered) then Some(Closed) else if old(future).Some? then Some(NotCleared) else None
      ensures error == None ==> future == Some(|old(futures)|) && futures == old(futures) + [Waiting]
    {
      StepKeepsClock(Abs(), ClockStep.PrepareWait);
      if !registered {
        return Some(Closed);
      }
      if future != None {
        return Some(NotCleared);
      }
      future := Some(|futures|);
      futures := futures + [Waiting];
      error := None;
    }

    method ClearWait()
      requires Bounded(Abs())
      modifies this
      ensures Abs() == Apply(old(Abs()), ClockStep.ClearWait) && (old(Valid()) ==> Valid())
    {
      if Valid() {
        ClearKeeps(Abs());
      }
      var f, t := future, timer;
      future, timer := None, None;
      if t != None {
        timers := timers[t.value := timers[t.value].(destroyed := timers[t.value].destroyed + 1)];
      }
      if f != None && futures[f.value].Waiting? {
        futures := futures[f.value := Cancelled];
      }
    }

    method OnJump(delta: int, now: int)
      requires Valid()
      modifies this
      ensures Valid() && Abs() == Apply(old(Abs()), JumpBy(delta, now))
    {
      StepKeepsClock(Abs(), JumpBy(delta, now));
      if !registered {
        return;
      }
      if delta < 0 {
        resets := resets + [now - delta];
      } else if delta > 0 {
        forwardJumps := forwardJumps + 1;
        if timer != None && future != None && futures[future.value].Waiting? {
          futures := futures[future.value := Progressed];
        }
      }
    }

    method WaitForProgress(timeoutOk: bool) returns (error: Option<ClockError>)
      requires Valid()
      modifies this
      ensures Valid() && Abs() == Apply(old(Abs()), ClockStep.WaitForProgress(timeoutOk))
      ensures error == if !old(registered) then Some(Closed)
                       else if old(future) == None || !old(futures)[old(future).value].Waiting? || old(timer).Some?
                       then Some(NotPrepared)
                       else if !timeoutOk then Some(BadTimeout) else None
      ensures error == None ==> timer == Some(|old(timers)|) && timers == old(timers) + [Timer(old(future).value, 0)]
    {
      StepKeepsClock(Abs(), ClockStep.WaitForProgress(timeoutOk));
      if !registered {
        return Some(Closed);
      }
      if future == None || !futures[future.value].Waiting? || timer != None {
        return Some(NotPrepared);
      }
      if !timeoutOk {
        return Some(BadTimeout);
      }
      timer := Some(|timers|);
      timers := timers + [Timer(future.value, 0)];
      error := None;
    }

    /** The callback of timer `t`. */
    method OnTimeout(t: nat)
      requires Valid() && t < |timers|
      modifies this
      ensures Valid() && Abs() == Apply(old(Abs()), FireTimer(t))
    {
      StepKeepsClock(Abs(), FireTimer(t));
      if futures[timers[t].future].Waiting? {
        futures := futures[timers[t].future := TimedOut];
      }
    }

    method Close()
      requires Valid()
      modifies this
      ensures Valid() && Abs() == Apply(old(Abs()), CloseSync)
    {
      StepKeepsClock(Abs(), CloseSync);
      registered := false;
      ClearWait();
    }
  }
}
