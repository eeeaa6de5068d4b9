/** Periodic pose polling with cancellation: the poll task cut at its await, its checks and its callbacks, so that
    timer ticks, replies and cancellation interleave in any order. */
module PosePolling {
  import opened StatusMessages

  /** Where a poll task stands. */
  datatype Pc =
    | Claimed     // `_pending` is set, the task is not created yet
    | Requesting  // awaiting the poses
    | Delivering  // the check found the handle live; the result callback is next
    | Failed      // the request or the callback raised; the error check is next
    | Erring      // the error check found the handle live; the error callback is next
    | Finishing   // the finally block is next

  datatype Poll = Poll(
    pending: bool, cancelled: bool, tasks: map<nat, Pc>, created: nat, results: nat, errors: nat, destroyed: nat)

  const IDLE := Poll(false, false, map[], 0, 0, 0, 0)

  datatype PollStep =
    | Tick
    | Launch(task: nat)
    | Reply(task: nat)
    | RequestFails(task: nat)
    | Deliver(task: nat, raises: bool)
    | CheckError(task: nat)
    | ReportError(task: nat)
    | Finish(task: nat)
    | Cancel

  /** The program counter from which a task takes the step. */
  function From(step: PollStep): Pc
    requires !step.Tick? && !step.Cancel?
  {
    match step
    case Launch(_) => Claimed
    case Reply(_) => Requesting
    case RequestFails(_) => Requesting
    case Deliver(_, _) => Delivering
    case CheckError(_) => Failed
    case ReportError(_) => Erring
    case Finish(_) => Finishing
  }

  predicate Enabled(p: Poll, step: PollStep) {
    step.Tick? || step.Cancel? || (step.task in p.tasks && p.tasks[step.task] == From(step))
  }

  function At(p: Poll, task: nat, pc: Pc): Poll {
    p.(tasks := p.tasks[task := pc])
  }

  function Apply(p: Poll, step: PollStep): Poll {
    match step
    case Tick =>
      if p.cancelled || p.pending then p
      else At(p.(pending := true, created := p.created + 1), p.created, Claimed)
    case Launch(t) => At(p, t, Requesting)
    case Reply(t) => At(p, t, if p.cancelled then Finishing else Delivering)
    case RequestFails(t) => At(p, t, Failed)
    case Deliver(t, raises) => At(p.(results := p.results + 1), t, if raises then Failed else Finishing)
    case CheckError(t) => At(p, t, if p.cancelled then Finishing else Erring)
    case ReportError(t) => At(p.(errors := p.errors + 1), t, Finishing)
    case Finish(t) => p.(pending := false, tasks := p.tasks - {t})
    case Cancel => if p.cancelled then p else p.(cancelled := true, destroyed := p.destroyed + 1)
  }

  /** `_pending` holds exactly while the latest task is under way, and no other task is. */
  ghost predicate PollInv(p: Poll) {
    && (p.pending ==> p.created > 0 && p.tasks.Keys == {p.created - 1})
    && (!p.pending ==> p.tasks == map[])
    && p.destroyed == (if p.cancelled then 1 else 0)
  }

  lemma StepKeepsPoll(p: Poll, step: PollStep)
    requires PollInv(p) && Enabled(p, step)
    ensures PollInv(Apply(p, step))
  {
    if !step.Tick? && !step.Cancel? {
      assert step.task in p.tasks.Keys;
    }
  }

  ghost predicate PollRun(states: seq<Poll>, steps: seq<PollStep>) {
    && |states| == |steps| + 1 && states[0] == IDLE
    && forall i :: 0 <= i < |steps| ==> Enabled(states[i], steps[i]) && states[i + 1] == Apply(states[i], steps[i])
  }

  lemma {:induction false} PollAlwaysOk(states: seq<Poll>, steps: seq<PollStep>, n: nat)
    requires PollRun(states, steps) && n < |states|
    ensures PollInv(states[n])
  {
    if n > 0 {
      PollAlwaysOk(states, steps, n - 1);
      StepKeepsPoll(states[n - 1], steps[n - 1]);
    }
  }

  /** At most one poll is under way, and `_pending` says exactly whether one is. */
  lemma OnePollAtATime(states: seq<Poll>, steps: seq<PollStep>, n: nat)
    requires PollRun(states, steps) && n < |states|
    ensures |states[n].tasks| <= 1 && (states[n].pending <==> |states[n].tasks| == 1)
    ensures states[n].destroyed == if states[n].cancelled then 1 else 0
  {
    PollAlwaysOk(states, steps, n);
    assert |states[n].tasks| == |states[n].tasks.Keys|;
  }

  /** Callbacks whose check has passed and that are still to run. */
  predicate Committed(p: Poll) {
    exists t :: t in p.tasks && (p.tasks[t].Delivering? || p.tasks[t].Erring?)
  }

  function CallbacksLeft(p: Poll): nat {
    p.results + p.errors + if Committed(p) then 1 else 0
  }

  lemma CancelledStep(p: Poll, step: PollStep)
    requires PollInv(p) && p.cancelled && Enabled(p, step)
    ensures var p' := Apply(p, step);
            p'.cancelled && p'.created == p.created && CallbacksLeft(p') == CallbacksLeft(p)
  {
    var p' := Apply(p, step);
    if !step.Tick? && !step.Cancel? {
      var t := step.task;
      assert p.tasks.Keys == {t} by {
        assert t in p.tasks.Keys;
      }
      assert Committed(p) <==> p.tasks[t].Delivering? || p.tasks[t].Erring?;
      assert !Committed(p');
    }
  }

  lemma ResultsGrow(p: Poll, step: PollStep)
    ensures Apply(p, step).results >= p.results && Apply(p, step).errors >= p.errors
  {
  }

  /** After cancel no poll is scheduled, and a poll that had not passed its check delivers neither result nor error:
      the only callback that can still run is the one already past the check. */
  lemma {:induction false} QuietAfterCancel(states: seq<Poll>, steps: seq<PollStep>, i: nat, n: nat)
    requires PollRun(states, steps) && i <= n < |states| && states[i].cancelled
    ensures states[n].cancelled && states[n].created == states[i].created
    ensures CallbacksLeft(states[n]) == CallbacksLeft(states[i])
    ensures !Committed(states[i]) ==>
              states[n].results == states[i].results && states[n].errors == states[i].errors
    decreases n
  {
    if n > i {
      QuietAfterCancel(states, steps, i, n - 1);
      PollAlwaysOk(states, steps, n - 1);
      CancelledStep(states[n - 1], steps[n - 1]);
      ResultsGrow(states[n - 1], steps[n - 1]);
    }
  }

  /** A callback can come after cancel: the one whose check has passed. */
  lemma CallbackAfterCancel() returns (states: seq<Poll>, steps: seq<PollStep>)
    ensures PollRun(states, steps) && |steps| == 5
    ensures states[4].cancelled && Committed(states[4]) && states[4].results == 0 && states[5].results == 1
  {
    steps := [Tick, Launch(0), Reply(0), Cancel, Deliver(0, false)];
    var s1 := Apply(IDLE, Tick);
    var s2 := Apply(s1, Launch(0));
    var s3 := Apply(s2, Reply(0));
    var s4 := Apply(s3, Cancel);
    states := [IDLE, s1, s2, s3, s4, Apply(s4, Deliver(0, false))];
    assert 0 in s4.tasks && s4.tasks[0].Delivering?;
  }

  // ---------- the class ----------

  datatype StartError = FrequencyNotPositive | NoExecutor

  class PosePollingHandle {
    var pending: bool
    var cancelled: bool
    var timerDestroyed: nat
    ghost var tasks: map<nat, Pc>
    ghost var created: nat
    var results: nat
    var errors: nat

    ghost function Abs(): Poll reads this {
      Poll(pending, cancelled, tasks, created, results, errors, timerDestroyed)
    }

    ghost predicate Valid() reads this { PollInv(Abs()) }

    constructor ()
      ensures Valid() && Abs() == IDLE
    {
      pending, cancelled, timerDestroyed := false, false, 0;
      tasks, created := map[], 0;
      results, errors := 0, 0;
    }

    method Schedule() returns (create: bool)
      requires Valid()
      modifies this
      ensures Valid() && Abs() == Apply(old(Abs()), Tick)
      ensures create <==> !old(cancelled) && !old(pending)
    {
      StepKeepsPoll(Abs(), Tick);
      create := !cancelled && !pending;
      if create {
        pending := true;
        tasks := tasks[created := Claimed];
        created := created + 1;
      }
    }

    /** A handle polls immediately; the arguments are checked first. */
    static method Start(frequency: real, hasExecutor: bool) returns (error: Option<StartError>, handle: PosePollingHandle?)
      ensures error == if frequency <= 0.0 then Some(FrequencyNotPositive)
                       else if !hasExecutor then Some(NoExecutor) else None
      ensures error.Some? <==> handle == null
      ensures handle != null ==> fresh(handle) && handle.Valid() && handle.Abs() == Apply(IDLE, Tick)
    {
      if frequency <= 0.0 {
        return Some(FrequencyNotPositive), null;
      }
      if !hasExecutor {
        return Some(NoExecutor), null;
      }
      handle := new PosePollingHandle();
      var _ := handle.Schedule();
      error := None;
    }

    /** The poses have arrived: the check under the lock. */
    method OnReply(ghost t: nat) returns (deliver: bool)
      requires Valid() && Enabled(Abs(), Reply(t))
      modifies this
      ensures Valid() && Abs() == Apply(old(Abs()), Reply(t)) && (deliver <==> !cancelled)
    {
      StepKeepsPoll(Abs(), Reply(t));
      deliver := !cancelled;
      tasks := tasks[t := if deliver then Delivering else Finishing];
    }

    /** The request or the callback raised: the check under the lock. */
    method OnException(ghost t: nat) returns (report: bool)
      requires Valid() && Enabled(Abs(), CheckError(t))
      modifies this
      ensures Valid() && Abs() == Apply(old(Abs()), CheckError(t)) && (report <==> !cancelled)
    {
      StepKeepsPoll(Abs(), CheckError(t));
      report := !cancelled;
      tasks := tasks[t := if report then Erring else Finishing];
    }

    method OnFinally(ghost t: nat)
      requires Valid() && Enabled(Abs(), Finish(t))
      modifies this
      ensures Valid() && Abs() == Apply(old(Abs()), Finish(t))
    {
      StepKeepsPoll(Abs(), Finish(t));
      pending := false;
      tasks := tasks - {t};
    }

    method CancelPolling()
      requires Valid()
      modifies this
      ensures Valid() && Abs() == Apply(old(Abs()), Cancel)
    {
      StepKeepsPoll(Abs(), Cancel);
      if cancelled {
        return;
      }
      cancelled := true;
      timerDestroyed := timerDestroyed + 1;
    }

    method OnLaunch(ghost t: nat)
      requires Valid() && Enabled(Abs(), Launch(t))
      modifies this
      ensures Valid() && Abs() == Apply(old(Abs()), Launch(t))
    {
      StepKeepsPoll(Abs(), Launch(t));
      tasks := tasks[t := Requesting];
    }

    method OnRequestFailed(ghost t: nat)
      requires Valid() && Enabled(Abs(), RequestFails(t))
      modifies this
      ensures Valid() && Abs() == Apply(old(Abs()), RequestFails(t))
    {
      StepKeepsPoll(Abs(), RequestFails(t));
      tasks := tasks[t := Failed];
    }

    method OnDeliver(ghost t: nat, raises: bool)
      requires Valid() && Enabled(Abs(), Deliver(t, raises))
      modifies this
      ensures Valid() && Abs() == Apply(old(Abs()), Deliver(t, raises))
    {
      StepKeepsPoll(Abs(), Deliver(t, raises));
      results := results + 1;
      tasks := tasks[t := if raises then Failed else Finishing];
    }

    method OnReport(ghost t: nat)
      requires Valid() && Enabled(Abs(), ReportError(t))
      modifies this
      ensures Valid() && Abs() == Apply(old(Abs()), ReportError(t))
    {
      StepKeepsPoll(Abs(), ReportError(t));
      errors := errors + 1;
      tasks := tasks[t := Finishing];
    }

    /** The except and finally blocks. */
    method HandleOutcome(raised: bool, ghost t: nat)
      requires Valid() && t in tasks && tasks[t] == if raised then Failed else Finishing
      modifies this
      ensures Valid() && !pending && tasks == map[] && cancelled == old(cancelled) && results == old(results)
      ensures errors == old(errors) + if !cancelled && raised then 1 else 0
    {
      if raised {
        var report := OnException(t);
        if report {
          OnReport(t);
        }
      }
      OnFinally(t);
    }

    /** One uninterrupted poll, from its creation to its finally block. */
    method RunPoll(succeeds: bool, callbackRaises: bool, ghost t: nat)
      requires Valid() && Enabled(Abs(), Launch(t))
      modifies this
      ensures Valid() && !pending && tasks == map[] && cancelled == old(cancelled)
      ensures results == old(results) + if succeeds && !cancelled then 1 else 0
      ensures errors == old(errors) + if !cancelled && (!succeeds || callbackRaises) then 1 else 0
    {
      OnLaunch(t);
      var raised := !succeeds;
      if succeeds {
        var deliver := OnReply(t);
        if deliver {
          OnDeliver(t, callbackRaises);
          raised := callbackRaises;
        }
      } else {
        OnRequestFailed(t);
      }
      HandleOutcome(raised, t);
    }
  }
}
