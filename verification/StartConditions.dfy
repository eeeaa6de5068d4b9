/** When a scenario starts without clock progress: exactly when the monitoring was closed during its own wait. */
module StartConditions {
  import opened StatusMessages
  import L = Lifecycle
  import C = ClockSync
  import opened Coordinator

  /** The monitoring is closed while context `c` waits, before any forward jump and before the timeout. */
  predicate ClosesWait(s: Coord, step: Step, c: Ctx) {
    && step == World(Destroy)
    && s.pc.Waiting? && s.pc.ctx == c
    && s.pc.future < |s.clock.futures| && s.clock.futures[s.pc.future].Waiting?
  }

  /** What a step adds to the closed waits. */
  function ClosedBy(s: Coord, step: Step): set<Ctx> {
    if s.pc.Waiting? && ClosesWait(s, step, s.pc.ctx) then {s.pc.ctx} else {}
  }

  /** The contexts whose wait was closed in the first `n` steps. */
  function Closed(states: seq<Coord>, steps: seq<Step>, n: nat): set<Ctx>
    requires n <= |steps| < |states|
  {
    if n == 0 then {}
    else
      Closed(states, steps, n - 1) + ClosedBy(states[n - 1], steps[n - 1])
  }

  lemma {:induction false} ClosedMeans(states: seq<Coord>, steps: seq<Step>, n: nat, c: Ctx)
    requires n <= |steps| < |states|
    ensures c in Closed(states, steps, n) <==> exists k :: 0 <= k < n && ClosesWait(states[k], steps[k], c)
  {
    if n > 0 {
      ClosedMeans(states, steps, n - 1, c);
    }
  }

  /** A context that is being prepared and has not begun to wait has not been closed, and the flag of a wait that is
      over says whether its context has. */
  ghost predicate PcTracks(pc: SetupPc, c: C.Clock, closed: set<Ctx>) {
    match pc
    case Creating(_, ctx) => ctx !in closed
    case SettingUp(_, ctx) => ctx !in closed
    case Waiting(_, ctx, f, _) => f < |c.futures| && (c.futures[f].Cancelled? <==> ctx in closed)
    case Ready(_, ctx, wait) => wait.Some? ==> (wait.value.released <==> ctx in closed)
    case Inserting(_, ctx, wait) => wait.Some? ==> (wait.value.released <==> ctx in closed)
    case _ => true
  }

  ghost predicate OutcomesTrack(os: seq<Outcome>, preparing: set<Ctx>, closed: set<Ctx>) {
    forall i :: 0 <= i < |os| && os[i].Started? ==>
      && os[i].ctx !in preparing
      && (os[i].wait.Some? ==> (os[i].wait.value.released <==> os[i].ctx in closed))
  }

  ghost predicate Known(os: seq<Outcome>, preparing: set<Ctx>, closed: set<Ctx>, created: set<Ctx>) {
    && preparing <= created && closed <= created
    && forall i :: 0 <= i < |os| && os[i].Started? ==> os[i].ctx in created
  }

  ghost predicate Tracks(s: Coord, closed: set<Ctx>) {
    && PcTracks(s.pc, s.clock, closed)
    && OutcomesTrack(s.outcomes, Preparing(s.pc), closed)
    && Known(s.outcomes, Preparing(s.pc), closed, s.life.created)
  }

  // ---------- every step keeps track ----------

  lemma AskTracks(s: Coord, step: RequestStep, closed: set<Ctx>)
    requires Tracks(s, closed) && RequestEnabled(s, step) && (s.setupActive <==> !s.pc.Idle?)
    ensures Tracks(RequestNext(s, step), closed)
  {
  }

  lemma LaunchCreated(l: L.Life, launch: L.LaunchStep)
    ensures L.LaunchNext(l, launch).created == if launch.Create? then l.created + {launch.ctx} else l.created
  {
  }

  /** Identifiers stay known, and a new one was not. */
  lemma TaskCreated(s: Coord, step: SetupStep)
    requires SetupEnabled(s, step)
    ensures SetupNext(s, step).life.created == if step.CreateContext? then s.life.created + {step.ctx} else s.life.created
    ensures step.CreateContext? ==> step.ctx !in s.life.created
  {
    match step
    case CreateContext(c) => LaunchCreated(s.life, L.Create(c));
    case Register(launch) => LaunchCreated(s.life, launch);
    case InsertContext => LaunchCreated(s.life, L.Insert(s.pc.ctx));
    case Activate(launch) => LaunchCreated(s.life, launch);
    case AnnounceStart => LaunchCreated(s.life, L.Announce(s.pc.ctx));
    case SendGoal => LaunchCreated(s.life, L.Send(s.pc.ctx));
    case _ =>
  }

  lemma TaskPc(s: Coord, step: SetupStep, closed: set<Ctx>)
    requires PcTracks(s.pc, s.clock, closed) && SetupEnabled(s, step)
    requires step.CreateContext? ==> step.ctx !in closed
    requires C.ClockInv(s.clock) && ClockFollows(s.life.useSim, s.pc, s.clock)
    ensures PcTracks(SetupNext(s, step).pc, SetupNext(s, step).clock, closed)
  {
  }

  lemma TaskOutcomes(s: Coord, step: SetupStep, closed: set<Ctx>)
    requires Tracks(s, closed) && SetupEnabled(s, step)
    requires step.CreateContext? ==> step.ctx !in s.life.created
    ensures OutcomesTrack(SetupNext(s, step).outcomes, Preparing(SetupNext(s, step).pc), closed)
  {
  }

  lemma TaskTracks(s: Coord, step: SetupStep, closed: set<Ctx>)
    requires Tracks(s, closed) && SetupEnabled(s, step)
    requires C.ClockInv(s.clock) && ClockFollows(s.life.useSim, s.pc, s.clock)
    ensures Tracks(SetupNext(s, step), closed)
  {
    TaskCreated(s, step);
    TaskPc(s, step, closed);
    TaskOutcomes(s, step, closed);
  }

  lemma WorldCreated(s: Coord, step: WorldStep)
    requires WorldEnabled(s, step)
    ensures WorldNext(s, step).life.created == s.life.created
  {
    match step
    case Listens(listen) => L.ListenEffect(s.life, listen);
    case StatusTimer(now) => TimerEffect(s.life, now);
    case ResetHandler(i) => HandleEffect(s.life, i);
    case Jump(_, _) => L.CaptureEffect(s.life);
    case _ =>
  }

  lemma CallbackPc(useSim: bool, pc: SetupPc, c: C.Clock, step: WorldStep, closed: set<Ctx>, more: set<Ctx>)
    requires useSim && C.ClockInv(c) && ClockFollows(useSim, pc, c) && PcTracks(pc, c, closed)
    requires IsCallback(step) && (step.Timeout? ==> step.t < |c.timers|)
    requires more == if step.Destroy? && pc.Waiting? && c.futures[pc.future].Waiting? then {pc.ctx} else {}
    ensures PcTracks(pc, Callback(c, step), closed + more)
  {
  }

  lemma WorldPc(s: Coord, step: WorldStep, closed: set<Ctx>)
    requires PcTracks(s.pc, s.clock, closed) && WorldEnabled(s, step)
    requires C.ClockInv(s.clock) && ClockFollows(s.life.useSim, s.pc, s.clock)
    ensures PcTracks(s.pc, WorldNext(s, step).clock, closed + ClosedBy(s, World(step)))
  {
    if IsCallback(step) {
      CallbackPc(s.life.useSim, s.pc, s.clock, step, closed, ClosedBy(s, World(step)));
    } else {
      assert closed + {} == closed;
    }
  }

  lemma WorldOutcomes(s: Coord, step: WorldStep, closed: set<Ctx>)
    requires OutcomesTrack(s.outcomes, Preparing(s.pc), closed) && WorldEnabled(s, step)
    ensures OutcomesTrack(WorldNext(s, step).outcomes, Preparing(s.pc), closed + ClosedBy(s, World(step)))
    ensures forall i :: 0 <= i < |WorldNext(s, step).outcomes| && WorldNext(s, step).outcomes[i].Started? ==>
              i < |s.outcomes| && WorldNext(s, step).outcomes[i] == s.outcomes[i]
  {
  }

  lemma WorldTracks(s: Coord, step: WorldStep, closed: set<Ctx>)
    requires Tracks(s, closed) && WorldEnabled(s, step)
    requires C.ClockInv(s.clock) && ClockFollows(s.life.useSim, s.pc, s.clock)
    ensures Tracks(WorldNext(s, step), closed + ClosedBy(s, World(step)))
  {
    WorldCreated(s, step);
    WorldPc(s, step, closed);
    WorldOutcomes(s, step, closed);
    assert WorldNext(s, step).pc == s.pc;
  }

  lemma StepTracks(s: Coord, step: Step, closed: set<Ctx>)
    requires Inv(s) && Tracks(s, closed) && Enabled(s, step)
    ensures Tracks(Apply(s, step), closed + ClosedBy(s, step))
  {
    assert !step.World? ==> closed + ClosedBy(s, step) == closed;
    match step
    case Ask(r) => AskTracks(s, r, closed);
    case Task(t) => TaskTracks(s, t, closed);
    case World(w) => WorldTracks(s, w, closed);
  }

  lemma InitialTracks(useSim: bool)
    ensures Tracks(Initial(useSim), {})
  {
  }

  lemma RunStepTracks(states: seq<Coord>, steps: seq<Step>, k: nat, closed: set<Ctx>)
    requires IsRun(states, steps) && k < |steps| && Tracks(states[k], closed)
    ensures Tracks(states[k + 1], closed + ClosedBy(states[k], steps[k]))
  {
    AlwaysOk(states, steps, k);
    assert Moves(states[k], steps[k], states[k + 1]);
    StepTracks(states[k], steps[k], closed);
  }

  lemma {:induction false} RunTracks(states: seq<Coord>, steps: seq<Step>, n: nat)
    requires IsRun(states, steps) && n < |states|
    ensures Tracks(states[n], Closed(states, steps, n))
  {
    if n == 0 {
      InitialTracks(states[0].life.useSim);
    } else {
      RunTracks(states, steps, n - 1);
      RunStepTracks(states, steps, n - 1, Closed(states, steps, n - 1));
    }
  }

  /** Under simulated time, in every run: a scenario was started after a forward jump delivered after its own scene was
      ready, if and only if the monitoring was not closed during its wait, before a jump and before the timeout. */
  lemma ProgressUnlessClosed(states: seq<Coord>, steps: seq<Step>, n: nat, i: nat)
    requires IsRun(states, steps) && n < |states| && states[n].life.useSim
    requires i < |states[n].outcomes| && states[n].outcomes[i].Started?
    ensures var o := states[n].outcomes[i];
            && o.wait.Some?
            && (o.wait.value.resumed > o.wait.value.ready
                <==> !exists k :: 0 <= k < n && ClosesWait(states[k], steps[k], o.ctx))
  {
    StartsAfterProgress(states, steps, n, i);
    RunTracks(states, steps, n);
    ClosedMeans(states, steps, n, states[n].outcomes[i].ctx);
  }

  // ---------- an input for which progress fails ----------

  lemma RunOn(states: seq<Coord>, steps: seq<Step>, step: Step) returns (states': seq<Coord>)
    requires IsRun(states, steps) && Enabled(states[|steps|], step)
    ensures IsRun(states', steps + [step]) && states'[|steps| + 1] == Apply(states[|steps|], step)
  {
    states' := states + [Apply(states[|steps|], step)];
    forall i | 0 <= i < |steps| + 1 ensures Moves(states'[i], (steps + [step])[i], states'[i + 1]) {
      if i < |steps| {
        assert Moves(states[i], steps[i], states[i + 1]);
      }
    }
  }

  predicate NoJump(steps: seq<Step>) {
    forall i :: 0 <= i < |steps| ==> !(steps[i].World? && steps[i].world.Jump?)
  }

  /** A request for one variation brings it into setup. */
  lemma PoppedRun(v: Variation) returns (states: seq<Coord>, steps: seq<Step>)
    ensures IsRun(states, steps) && NoJump(steps)
    ensures states[|steps|] == Initial(true).(setupActive := true, pc := Popped(v), enqueued := [v])
  {
    var s0 := Initial(true);
    var s1 := Apply(s0, Ask(Request([v])));
    var s2 := Apply(s1, Ask(Append(0)));
    var s3 := Apply(s2, Ask(Finished(0)));
    var s4 := Apply(s3, Ask(Schedule));
    var s5 := Apply(s4, Task(Begin));
    states := [s0, s1, s2, s3, s4, s5, Apply(s5, Task(Pop))];
    steps := [Ask(Request([v])), Ask(Append(0)), Ask(Finished(0)), Ask(Schedule), Task(Begin), Task(Pop)];
  }

  ghost predicate FirstWaits(s: Coord, v: Variation) {
    && s.life == L.LaunchNext(L.Fresh(true), L.Create(0)) && s.outcomes == []
    && s.pc == Waiting(v, 0, 0, 0)
    && s.clock == C.Clock(true, [C.FutureState.Waiting], [C.Timer(0, 0)], Some(0), Some(0), 0, [])
  }

  /** Its scene is set up and the wait begins. */
  lemma WaitingRun(v: Variation) returns (states: seq<Coord>, steps: seq<Step>)
    ensures IsRun(states, steps) && NoJump(steps) && FirstWaits(states[|steps|], v)
  {
    states, steps := PoppedRun(v);
    states := RunOn(states, steps, Task(CreateContext(0)));
    steps := steps + [Task(CreateContext(0))];
    states := RunOn(states, steps, Task(BeginSetup));
    steps := steps + [Task(BeginSetup)];
    states := RunOn(states, steps, Task(SceneReady(true)));
    steps := steps + [Task(SceneReady(true))];
  }

  lemma ReleasedStart(s: Coord, v: Variation)
    requires FirstWaits(s, v)
    ensures Enabled(s, World(Destroy))
    ensures var s1 := Apply(s, World(Destroy));
            && Enabled(s1, Task(Resume))
            && var s2 := Apply(s1, Task(Resume));
               && Enabled(s2, Task(ClearAfterSuccess))
               && var s3 := Apply(s2, Task(ClearAfterSuccess));
                  && Enabled(s3, Task(InsertContext))
                  && Apply(s3, Task(InsertContext)).outcomes == [Started(v, 0, Some(Wait(0, 0, false, true)))]
  {
  }

  /** The node is destroyed during the wait, no jump is ever delivered, and the scenario starts. */
  lemma StartsWithoutProgress(v: Variation) returns (states: seq<Coord>, steps: seq<Step>)
    ensures IsRun(states, steps) && NoJump(steps)
    ensures states[|steps|].outcomes == [Started(v, 0, Some(Wait(0, 0, false, true)))]
  {
    states, steps := WaitingRun(v);
    ReleasedStart(states[|steps|], v);
    states := RunOn(states, steps, World(Destroy));
    steps := steps + [World(Destroy)];
    states := RunOn(states, steps, Task(Resume));
    steps := steps + [Task(Resume)];
    states := RunOn(states, steps, Task(ClearAfterSuccess));
    steps := steps + [Task(ClearAfterSuccess)];
    states := RunOn(states, steps, Task(InsertContext));
    steps := steps + [Task(InsertContext)];
  }
}
