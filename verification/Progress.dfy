/** The scheduler cannot stop short and cannot go on for ever: some move of its own is possible until nothing is left to
    do, and its moves are bounded by the work at hand. */
module Progress {
  import opened StatusMessages
  import L = Lifecycle
  import C = ClockSync
  import opened Coordinator

  /** A move of the scheduler: a start request that appends or ends, a call of the scheduler, a move of the setup task. */
  predicate IsWork(step: Step) {
    (step.Ask? && !step.request.Request?) || Advances(step)
  }

  // ---------- the budget ----------

  /** The moves left to the setup task on the variation it is at. A task that may find the queue empty needs more than
      one that is about to take a variation, whose own budget it uses. */
  function PcBudget(pc: SetupPc, noneLeft: bool): nat {
    match pc
    case Idle => 2
    case Claimed => if noneLeft then 6 else 2
    case LoopTop => if noneLeft then 5 else 1
    case Popped(_) => 12
    case Creating(_, _) => 11
    case SettingUp(_, _) => 10
    case Waiting(_, _, _, _) => 9
    case Ready(_, _, _) => 8
    case Failed(_, _) => 8
    case Inserting(_, _, _) => 7
    case Cleaning => 7
    case Launching(_) => 6
    case Sending(_) => 5
    case Leaving => 4
  }

  function RequestBudget(starters: seq<seq<Variation>>): nat {
    if starters == [] then 0
    else RequestBudget(starters[..|starters| - 1]) + 13 * |starters[|starters| - 1]| + 2
  }

  function Budget(s: Coord): nat {
    12 * |s.pending| + PcBudget(s.pc, s.pending == []) + s.wakers + RequestBudget(s.starters)
  }

  /** A timer callback is good for one more call of the scheduler; an accepted request for its variations. */
  function Grant(s: Coord, step: Step): nat {
    if step.World? && step.world.StatusTimer? then 1
    else if step.Ask? && step.request.Request? && !Busy(s) then 13 * |step.request.variations| + 2
    else 0
  }

  lemma {:induction false} BudgetAt(starters: seq<seq<Variation>>, i: nat, vs: seq<Variation>)
    requires i < |starters|
    ensures RequestBudget(starters[i := vs]) + 13 * |starters[i]| == RequestBudget(starters) + 13 * |vs|
    decreases |starters|
  {
    var n := |starters| - 1;
    if i == n {
      assert starters[i := vs][..n] == starters[..n];
    } else {
      BudgetAt(starters[..n], i, vs);
      assert starters[i := vs][..n] == starters[..n][i := vs];
    }
  }

  lemma {:induction false} BudgetWithout(starters: seq<seq<Variation>>, i: nat)
    requires i < |starters|
    ensures RequestBudget(starters[..i] + starters[i + 1..]) + 13 * |starters[i]| + 2 == RequestBudget(starters)
    decreases |starters|
  {
    var n := |starters| - 1;
    var rest := starters[..i] + starters[i + 1..];
    if i == n {
      assert rest == starters[..n];
    } else {
      BudgetWithout(starters[..n], i);
      assert rest[..n - 1] == starters[..n][..i] + starters[..n][i + 1..];
    }
  }

  lemma AskPays(s: Coord, step: RequestStep)
    requires RequestEnabled(s, step) && (s.setupActive <==> !s.pc.Idle?)
    ensures (if step.Request? then 0 else 1) + Budget(RequestNext(s, step)) <= Budget(s) + Grant(s, Ask(step))
  {
    match step
    case Request(vs) =>
      assert (s.starters + [vs])[..|s.starters|] == s.starters;
    case Append(i) => BudgetAt(s.starters, i, s.starters[i][1..]);
    case Finished(i) => BudgetWithout(s.starters, i);
    case Schedule =>
  }

  lemma PopPays(s: Coord)
    requires SetupEnabled(s, Pop) && s.life.contexts == map[]
    ensures Budget(SetupNext(s, Pop)) < Budget(s)
  {
  }

  lemma MoveLeavesQueues(s: Coord, step: SetupStep)
    requires SetupEnabled(s, step) && !step.Pop?
    ensures var s' := SetupNext(s, step);
            && s'.pending == s.pending && s'.starters == s.starters
            && s'.wakers == s.wakers + if step.Leave? then 1 else 0
  {
  }

  lemma MovePays(s: Coord, step: SetupStep, noneLeft: bool)
    requires SetupEnabled(s, step) && !step.Pop?
    ensures var pc, pc' := s.pc, SetupNext(s, step).pc;
            if step.Register? || step.Activate? then pc' == pc
            else PcBudget(pc', noneLeft) + (if step.Leave? then 2 else 1) <= PcBudget(pc, noneLeft)
  {
  }

  lemma TaskPays(s: Coord, step: SetupStep)
    requires SetupEnabled(s, step) && (step.Pop? ==> s.life.contexts == map[])
    ensures (if Advances(Task(step)) then 1 else 0) + Budget(SetupNext(s, step)) <= Budget(s)
  {
    if step.Pop? {
      PopPays(s);
    } else {
      MoveLeavesQueues(s, step);
      MovePays(s, step, s.pending == []);
    }
  }

  lemma WorldPays(s: Coord, step: WorldStep)
    requires WorldEnabled(s, step)
    ensures Budget(WorldNext(s, step)) <= Budget(s) + Grant(s, World(step))
  {
  }

  lemma NoContextAtPop(s: Coord)
    requires Exclusive(s.pc, s.life.contexts.Keys, s.life.launching)
    ensures s.pc.LoopTop? ==> s.life.contexts == map[]
  {
    if s.pc.LoopTop? {
      NoKeysNoMap(s.life.contexts, map[]);
    }
  }

  lemma StepPays(s: Coord, step: Step)
    requires Inv(s) && Enabled(s, step)
    ensures (if IsWork(step) then 1 else 0) + Budget(Apply(s, step)) <= Budget(s) + Grant(s, step)
  {
    match step
    case Ask(r) => AskPays(s, r);
    case Task(t) =>
      NoContextAtPop(s);
      TaskPays(s, t);
    case World(w) => WorldPays(s, w);
  }

  // ---------- a whole run ----------

  function Work(steps: seq<Step>): nat {
    if steps == [] then 0 else Work(steps[..|steps| - 1]) + if IsWork(steps[|steps| - 1]) then 1 else 0
  }

  function Sum(grants: seq<nat>, i: nat, n: nat): nat
    requires i <= n <= |grants|
  {
    if i == n then 0 else Sum(grants, i, n - 1) + grants[n - 1]
  }

  /** What each step of the run grants. */
  function GrantsOf(states: seq<Coord>, steps: seq<Step>): (grants: seq<nat>)
    requires |states| == |steps| + 1
    ensures |grants| == |steps|
  {
    seq(|steps|, k requires 0 <= k < |steps| => Grant(states[k], steps[k]))
  }

  function Budgets(states: seq<Coord>): (budgets: seq<nat>)
    ensures |budgets| == |states|
  {
    seq(|states|, k requires 0 <= k < |states| => Budget(states[k]))
  }

  predicate Pays(step: Step, before: nat, after: nat, grant: nat) {
    (if IsWork(step) then 1 else 0) + after <= before + grant
  }

  lemma WorkSnoc(steps: seq<Step>, step: Step)
    ensures Work(steps + [step]) == Work(steps) + if IsWork(step) then 1 else 0
  {
    assert (steps + [step])[..|steps|] == steps;
  }

  lemma RunStepPays(states: seq<Coord>, steps: seq<Step>, k: nat)
    requires IsRun(states, steps) && k < |steps|
    ensures Pays(steps[k], Budget(states[k]), Budget(states[k + 1]), Grant(states[k], steps[k]))
  {
    AlwaysOk(states, steps, k);
    assert Moves(states[k], steps[k], states[k + 1]);
    StepPays(states[k], steps[k]);
  }

  lemma {:induction false} PaidInAll(steps: seq<Step>, budgets: seq<nat>, grants: seq<nat>, i: nat, n: nat)
    requires |budgets| == |steps| + 1 && |grants| == |steps| && i <= n <= |steps|
    requires forall k :: i <= k < n ==> Pays(steps[k], budgets[k], budgets[k + 1], grants[k])
    ensures Work(steps[i..n]) + budgets[n] <= budgets[i] + Sum(grants, i, n)
    decreases n
  {
    if i < n {
      PaidInAll(steps, budgets, grants, i, n - 1);
      WorkSnoc(steps[i..n - 1], steps[n - 1]);
      assert steps[i..n] == steps[i..n - 1] + [steps[n - 1]];
      assert Pays(steps[n - 1], budgets[n - 1], budgets[n], grants[n - 1]);
    }
  }

  /** Between any two positions of any run, resets included, the scheduler makes at most as many moves as it had work at
      hand, plus what timer callbacks and accepted requests have added. */
  lemma WorkIsBounded(states: seq<Coord>, steps: seq<Step>, i: nat, n: nat)
    requires IsRun(states, steps) && i <= n < |states|
    ensures Work(steps[i..n]) + Budget(states[n]) <= Budget(states[i]) + Sum(GrantsOf(states, steps), i, n)
  {
    var budgets, grants := Budgets(states), GrantsOf(states, steps);
    forall k | i <= k < n ensures Pays(steps[k], budgets[k], budgets[k + 1], grants[k]) {
      RunStepPays(states, steps, k);
    }
    PaidInAll(steps, budgets, grants, i, n);
  }

  // ---------- it does not stop short ----------

  lemma {:induction false} FreshIn(created: set<int>) returns (c: int)
    ensures forall d :: d in created ==> d < c
    decreases created
  {
    if created == {} {
      c := 0;
    } else {
      var d := L.AnElement(created);
      var c' := FreshIn(created - {d});
      c := if d < c' then c' else d + 1;
      forall x | x in created ensures x < c {
        assert x != d ==> x in created - {d};
      }
    }
  }

  /** The wait's own timeout ends it. */
  predicate TimesOut(s: Coord, step: Step) {
    && s.pc.Waiting? && step.World? && step.world.Timeout?
    && Enabled(s, step) && Enabled(Apply(s, step), Task(Resume))
  }

  lemma WaitEnds(s: Coord) returns (step: Step)
    requires Inv(s) && s.pc.Waiting?
    ensures Enabled(s, step) && (step == Task(Resume) || TimesOut(s, step))
  {
    if C.Done(s.clock, s.pc.future) {
      step := Task(Resume);
    } else {
      assert s.clock.future == Some(s.pc.future) && s.clock.timer.Some?;
      step := World(Timeout(s.clock.timer.value));
    }
  }

  /** What the setup task needs of the scheduler for its next move. */
  ghost predicate TaskReady(s: Coord) {
    && Exclusive(s.pc, s.life.contexts.Keys, s.life.launching)
    && C.Bounded(s.clock)
  }

  lemma PreparingMoves(s: Coord) returns (step: SetupStep)
    requires TaskReady(s) && (s.pc.Creating? || s.pc.SettingUp? || s.pc.Failed? || s.pc.Ready? || s.pc.Inserting?)
    ensures SetupEnabled(s, step) && !step.Register? && !step.Activate?
  {
    assert s.pc.ctx in s.life.launching.Keys;
    match s.pc
    case Creating(_, _) => step := BeginSetup;
    case SettingUp(_, _) => step := SceneFails;
    case Failed(_, _) => step := FailCleanup;
    case Ready(_, _, _) => step := ClearAfterSuccess;
    case Inserting(_, _, _) => step := InsertContext;
  }

  lemma OtherMoves(s: Coord) returns (step: SetupStep)
    requires TaskReady(s) && !s.pc.Idle? && !s.pc.Waiting?
    requires !(s.pc.Creating? || s.pc.SettingUp? || s.pc.Failed? || s.pc.Ready? || s.pc.Inserting?)
    ensures SetupEnabled(s, step) && !step.Register? && !step.Activate?
  {
    match s.pc
    case Claimed => step := Begin;
    case LoopTop => step := Pop;
    case Popped(_) =>
      var c := FreshIn(s.life.created);
      step := CreateContext(c);
    case Cleaning => step := ClearAfterFailure;
    case Launching(_) => step := AnnounceStart;
    case Sending(_) => step := SendGoal;
    case Leaving => step := Leave;
  }

  lemma TaskMoves(s: Coord) returns (step: Step)
    requires Inv(s) && !s.pc.Idle?
    ensures Enabled(s, step) && (IsWork(step) || TimesOut(s, step))
  {
    if s.pc.Waiting? {
      step := WaitEnds(s);
    } else {
      var move: SetupStep;
      if s.pc.Creating? || s.pc.SettingUp? || s.pc.Failed? || s.pc.Ready? || s.pc.Inserting? {
        move := PreparingMoves(s);
      } else {
        move := OtherMoves(s);
      }
      step := Task(move);
    }
  }

  /** While a scenario is in setup, a request is being enqueued, a caller is before the scheduler, or work is pending and
      no context is active, some move of the scheduler is possible, or the timeout that ends its wait is. */
  lemma NeverStuck(states: seq<Coord>, steps: seq<Step>, n: nat) returns (step: Step)
    requires IsRun(states, steps) && n < |states|
    requires !Quiet(states[n]) || (states[n].pending != [] && states[n].life.contexts == map[])
    ensures Enabled(states[n], step) && (IsWork(step) || TimesOut(states[n], step))
  {
    var s := states[n];
    AlwaysOk(states, steps, n);
    if s.wakers > 0 {
      step := Ask(Schedule);
    } else if s.starters != [] {
      step := Ask(if s.starters[0] == [] then Finished(0) else Append(0));
    } else {
      step := TaskMoves(s);
    }
  }

  lemma TaskMayRegister(s: Coord, topic: L.Topic, uri: L.Uri)
    requires Exclusive(s.pc, s.life.contexts.Keys, s.life.launching)
    ensures s.pc.Creating? ==>
              Enabled(s, Task(Register(L.RegisterPolicy(s.pc.ctx, topic, uri))))
              && Enabled(s, Task(Register(L.RegisterObservation(s.pc.ctx, topic, uri))))
    ensures s.pc.Launching? && (s.pc.ctx, uri) !in s.life.simHandles ==>
              Enabled(s, Task(Activate(L.ActivateSim(s.pc.ctx, uri))))
    ensures s.pc.Launching? && (s.pc.ctx, uri) !in s.life.tfHandles ==>
              Enabled(s, Task(Activate(L.ActivateTf(s.pc.ctx, uri))))
  {
    if s.pc.Creating? {
      assert s.pc.ctx in s.life.launching.Keys;
    }
  }

  /** In every run, while a context is created any topic may be registered for it, and once it is inserted polling may be
      started for any provider that is not polled yet. */
  lemma MayRegister(states: seq<Coord>, steps: seq<Step>, n: nat, topic: L.Topic, uri: L.Uri)
    requires IsRun(states, steps) && n < |states|
    ensures states[n].pc.Creating? ==>
              Enabled(states[n], Task(Register(L.RegisterPolicy(states[n].pc.ctx, topic, uri))))
              && Enabled(states[n], Task(Register(L.RegisterObservation(states[n].pc.ctx, topic, uri))))
    ensures states[n].pc.Launching? && (states[n].pc.ctx, uri) !in states[n].life.simHandles ==>
              Enabled(states[n], Task(Activate(L.ActivateSim(states[n].pc.ctx, uri))))
    ensures states[n].pc.Launching? && (states[n].pc.ctx, uri) !in states[n].life.tfHandles ==>
              Enabled(states[n], Task(Activate(L.ActivateTf(states[n].pc.ctx, uri))))
  {
    AlwaysOk(states, steps, n);
    TaskMayRegister(states[n], topic, uri);
  }
}
