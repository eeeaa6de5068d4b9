/** The scenario scheduler in simulation mode: start requests, the setup task, the status timer, clock callbacks and
    deferred reset handlers, cut at every await and between lock regions, and interleaved in any order. */
module Coordinator {
  import opened StatusMessages
  import L = Lifecycle
  import C = ClockSync

  type Variation = int

  type Ctx = L.Ctx

  /** What a scenario waited for: forward jumps seen when its scene was ready and when it was resumed, whether the
      clock monitoring was still open then, and whether the wait was released instead of completed. */
  datatype Wait = Wait(ready: nat, resumed: nat, open: bool, released: bool)

  datatype Outcome =
    | Started(variation: Variation, ctx: Ctx, wait: Option<Wait>)
    | SetupFailed(variation: Variation)
    | Dropped(variation: Variation)

  /** Where the setup task stands. */
  datatype SetupPc =
    | Idle
    | Claimed                                             // the flag is set, the task is not running yet
    | LoopTop
    | Popped(variation: Variation)
    | Creating(variation: Variation, ctx: Ctx)            // the context registers its topics
    | SettingUp(variation: Variation, ctx: Ctx)           // awaiting the scene
    | Waiting(variation: Variation, ctx: Ctx, future: nat, ready: nat)
    | Failed(variation: Variation, ctx: Ctx)              // the exception has been caught
    | Cleaning                                            // the finally block after a failure
    | Ready(variation: Variation, ctx: Ctx, wait: Option<Wait>)
    | Inserting(variation: Variation, ctx: Ctx, wait: Option<Wait>)
    | Launching(ctx: Ctx)                                 // polling handles, then the start event
    | Sending(ctx: Ctx)                                   // the goal
    | Leaving                                             // the flag is cleared next

  datatype Coord = Coord(
    life: L.Life,
    clock: C.Clock,
    pending: seq<Variation>,
    setupActive: bool,
    pc: SetupPc,
    wakers: nat,                      // callers just before `_schedule_next_scenario`
    starters: seq<seq<Variation>>,    // accepted start requests and what they still enqueue
    enqueued: seq<Variation>,
    outcomes: seq<Outcome>)

  function Initial(useSim: bool): Coord {
    Coord(L.Fresh(useSim), C.OPENED, [], false, Idle, 0, [], [], [])
  }

  // ---------- requests and wake-ups ----------

  datatype RequestStep =
    | Request(variations: seq<Variation>)
    | Append(i: nat)
    | Finished(i: nat)
    | Schedule

  predicate Busy(s: Coord) {
    s.setupActive || s.pending != [] || s.life.contexts != map[]
  }

  predicate RequestEnabled(s: Coord, step: RequestStep) {
    match step
    case Request(_) => true
    case Append(i) => i < |s.starters| && s.starters[i] != []
    case Finished(i) => i < |s.starters| && s.starters[i] == []
    case Schedule => s.wakers > 0
  }

  function RequestNext(s: Coord, step: RequestStep): Coord
    requires RequestEnabled(s, step)
  {
    match step
    case Request(vs) => if Busy(s) then s else s.(starters := s.starters + [vs])
    case Append(i) =>
      var v := s.starters[i][0];
      s.(starters := s.starters[i := s.starters[i][1..]], pending := s.pending + [v], enqueued := s.enqueued + [v])
    case Finished(i) => s.(starters := s.starters[..i] + s.starters[i + 1..], wakers := s.wakers + 1)
    case Schedule =>
      if s.setupActive || s.life.contexts != map[] || s.pending == [] then s.(wakers := s.wakers - 1)
      else s.(wakers := s.wakers - 1, setupActive := true, pc := Claimed)
  }

  // ---------- the setup task ----------

  datatype SetupStep =
    | Begin
    | Pop
    | CreateContext(ctx: Ctx)
    | Register(launch: L.LaunchStep)
    | BeginSetup
    | SceneFails
    | SceneReady(timeoutOk: bool)
    | Resume
    | FailCleanup
    | ClearAfterFailure
    | ClearAfterSuccess
    | InsertContext
    | Activate(launch: L.LaunchStep)
    | AnnounceStart
    | SendGoal
    | Leave

  predicate SetupEnabled(s: Coord, step: SetupStep) {
    match step
    case Begin => s.pc.Claimed?
    case Pop => s.pc.LoopTop?
    case CreateContext(c) => s.pc.Popped? && L.LaunchEnabled(s.life, L.Create(c))
    case Register(launch) =>
      s.pc.Creating? && (launch.RegisterPolicy? || launch.RegisterObservation?) && launch.ctx == s.pc.ctx
      && L.LaunchEnabled(s.life, launch)
    case BeginSetup => s.pc.Creating?
    case SceneFails => s.pc.SettingUp?
    case SceneReady(_) => s.pc.SettingUp? && C.Bounded(s.clock)
    case Resume => s.pc.Waiting? && s.pc.future < |s.clock.futures| && C.Done(s.clock, s.pc.future)
    case FailCleanup => s.pc.Failed? && L.CleanEnabled(s.life, L.Abort(s.pc.ctx))
    case ClearAfterFailure => s.pc.Cleaning? && C.Bounded(s.clock)
    case ClearAfterSuccess => s.pc.Ready? && C.Bounded(s.clock)
    case InsertContext => s.pc.Inserting? && L.LaunchEnabled(s.life, L.Insert(s.pc.ctx))
    case Activate(launch) =>
      s.pc.Launching? && (launch.ActivateSim? || launch.ActivateTf?) && launch.ctx == s.pc.ctx
      && L.LaunchEnabled(s.life, launch)
    case AnnounceStart => s.pc.Launching? && L.LaunchEnabled(s.life, L.Announce(s.pc.ctx))
    case SendGoal => s.pc.Sending? && L.LaunchEnabled(s.life, L.Send(s.pc.ctx))
    case Leave => s.pc.Leaving?
  }

  function Cleared(s: Coord): C.Clock
    requires C.Bounded(s.clock)
  {
    if s.life.useSim then C.Clear(s.clock) else s.clock
  }

  function SetupNext(s: Coord, step: SetupStep): Coord
    requires SetupEnabled(s, step)
  {
    match step
    case Begin => s.(pc := LoopTop)
    case Pop =>
      if s.pending == [] || s.life.contexts != map[] then s.(pc := Leaving)
      else s.(pc := Popped(s.pending[0]), pending := s.pending[1..])
    case CreateContext(c) => s.(life := L.LaunchNext(s.life, L.Create(c)), pc := Creating(s.pc.variation, c))
    case Register(launch) => s.(life := L.LaunchNext(s.life, launch))
    case BeginSetup =>
      if !s.life.useSim then s.(pc := SettingUp(s.pc.variation, s.pc.ctx))
      else if C.PrepareError(s.clock).Some? then s.(pc := Failed(s.pc.variation, s.pc.ctx))
      else s.(clock := C.Prepare(s.clock), pc := SettingUp(s.pc.variation, s.pc.ctx))
    case SceneFails => s.(pc := Failed(s.pc.variation, s.pc.ctx))
    case SceneReady(timeoutOk) =>
      if !s.life.useSim then s.(pc := Ready(s.pc.variation, s.pc.ctx, None))
      else if C.WaitError(s.clock, timeoutOk).Some? then s.(pc := Failed(s.pc.variation, s.pc.ctx))
      else
        s.(clock := C.StartWait(s.clock, timeoutOk),
           pc := Waiting(s.pc.variation, s.pc.ctx, s.clock.future.value, s.clock.forwardJumps))
    case Resume =>
      // a cancelled future resumes its waiter like a completed one; a timeout raises
      if s.clock.futures[s.pc.future].TimedOut? then s.(pc := Failed(s.pc.variation, s.pc.ctx))
      else
        s.(pc := Ready(s.pc.variation, s.pc.ctx, Some(
            Wait(s.pc.ready, s.clock.forwardJumps, s.clock.open, s.clock.futures[s.pc.future].Cancelled?))))
    case FailCleanup =>
      s.(life := L.CleanNext(s.life, L.Abort(s.pc.ctx)), pc := Cleaning,
         outcomes := s.outcomes + [SetupFailed(s.pc.variation)])
    case ClearAfterFailure => s.(clock := Cleared(s), pc := LoopTop)
    case ClearAfterSuccess => s.(clock := Cleared(s), pc := Inserting(s.pc.variation, s.pc.ctx, s.pc.wait))
    case InsertContext =>
      s.(life := L.LaunchNext(s.life, L.Insert(s.pc.ctx)), pc := Launching(s.pc.ctx),
         outcomes := s.outcomes + [Started(s.pc.variation, s.pc.ctx, s.pc.wait)])
    case Activate(launch) => s.(life := L.LaunchNext(s.life, launch))
    case AnnounceStart => s.(life := L.LaunchNext(s.life, L.Announce(s.pc.ctx)), pc := Sending(s.pc.ctx))
    case SendGoal => s.(life := L.LaunchNext(s.life, L.Send(s.pc.ctx)), pc := Leaving)
    case Leave => s.(setupActive := false, pc := Idle, wakers := s.wakers + 1)
  }

  // ---------- everything else ----------

  datatype WorldStep =
    | Listens(listen: L.ListenStep)
    | StatusTimer(now: int)
    | ResetHandler(i: nat)
    | Jump(delta: int, now: int)
    | Timeout(t: nat)
    | Destroy

  predicate WorldEnabled(s: Coord, step: WorldStep) {
    match step
    case Listens(listen) => !listen.ClockReset? && L.ListenEnabled(s.life, listen)
    case StatusTimer(_) => true
    case ResetHandler(i) => L.CleanEnabled(s.life, L.Handle(i))
    case Jump(_, _) => s.life.useSim && C.Bounded(s.clock)
    case Timeout(t) => s.life.useSim && C.Bounded(s.clock) && t < |s.clock.timers|
    case Destroy => s.life.useSim && C.Bounded(s.clock)
  }

  function Drops(vs: seq<Variation>): seq<Outcome> {
    seq(|vs|, i requires 0 <= i < |vs| => Dropped(vs[i]))
  }

  predicate IsCallback(step: WorldStep) {
    step.Jump? || step.Timeout? || step.Destroy?
  }

  /** The clock callbacks' effect on the clock. */
  function Callback(c: C.Clock, step: WorldStep): C.Clock
    requires C.Bounded(c) && IsCallback(step) && (step.Timeout? ==> step.t < |c.timers|)
  {
    match step
    case Jump(delta, now) => C.Jump(c, delta, now)
    case Timeout(t) => C.Fire(c, t)
    case Destroy => C.Close(c)
  }

  function WorldNext(s: Coord, step: WorldStep): Coord
    requires WorldEnabled(s, step)
  {
    match step
    case Listens(listen) => s.(life := L.ListenNext(s.life, listen))
    case StatusTimer(now) =>
      if s.life.contexts == map[] then s
      else s.(life := L.CleanNext(s.life, L.Timer(now)), wakers := s.wakers + 1)
    case ResetHandler(i) =>
      var failing := L.Failing(s.life, s.life.deferred[i]);
      var s' := s.(life := L.CleanNext(s.life, L.Handle(i)));
      if failing == {} then s' else s'.(pending := [], outcomes := s.outcomes + Drops(s.pending))
    case Jump(delta, now) =>
      s.(clock := Callback(s.clock, step),
         life := if s.clock.open && delta < 0 then L.ListenNext(s.life, L.ClockReset) else s.life)
    case Timeout(_) => s.(clock := Callback(s.clock, step))
    case Destroy => s.(clock := Callback(s.clock, step))
  }

  datatype Step = Ask(request: RequestStep) | Task(setup: SetupStep) | World(world: WorldStep)

  predicate Enabled(s: Coord, step: Step) {
    match step
    case Ask(r) => RequestEnabled(s, r)
    case Task(t) => SetupEnabled(s, t)
    case World(w) => WorldEnabled(s, w)
  }

  function Apply(s: Coord, step: Step): Coord
    requires Enabled(s, step)
  {
    match step
    case Ask(r) => RequestNext(s, r)
    case Task(t) => SetupNext(s, t)
    case World(w) => WorldNext(s, w)
  }

  // ---------- invariants ----------

  /** The context that the setup task is preparing and has not inserted. */
  function Preparing(pc: SetupPc): set<Ctx> {
    match pc
    case Creating(_, c) => {c}
    case SettingUp(_, c) => {c}
    case Waiting(_, c, _, _) => {c}
    case Failed(_, c) => {c}
    case Ready(_, c, _) => {c}
    case Inserting(_, c, _) => {c}
    case _ => {}
  }

  /** The variation that has left the queue and has no outcome yet. */
  function InSetup(pc: SetupPc): seq<Variation> {
    match pc
    case Popped(v) => [v]
    case Creating(v, _) => [v]
    case SettingUp(v, _) => [v]
    case Waiting(v, _, _, _) => [v]
    case Failed(v, _) => [v]
    case Ready(v, _, _) => [v]
    case Inserting(v, _, _) => [v]
    case _ => []
  }

  /** At most one context is active, none while one is being prepared, and launches belong to the setup task. */
  ghost predicate Exclusive(pc: SetupPc, contexts: set<Ctx>, launching: map<Ctx, L.LaunchPc>) {
    && |contexts| <= 1
    && (pc.Claimed? || pc.LoopTop? || pc.Cleaning? || InSetup(pc) != [] ==> contexts == {})
    && (match pc
        case Launching(c) => launching == map[c := L.Activating] && contexts == {c}
        case Sending(c) => launching == map[c := L.Announced] && contexts <= {c}
        case _ =>
          launching.Keys == Preparing(pc)
          && forall c :: c in launching ==> launching[c].Registering?)
  }

  function Variations(os: seq<Outcome>): seq<Variation> {
    seq(|os|, i requires 0 <= i < |os| => os[i].variation)
  }

  /** Every enqueued variation, in order, has an outcome, or is being set up, or is pending. */
  ghost predicate Conserved(s: Coord) {
    s.enqueued == Variations(s.outcomes) + InSetup(s.pc) + s.pending
  }

  ghost predicate Awake(s: Coord) {
    s.pending != [] && s.life.contexts == map[] && !s.setupActive ==> s.wakers > 0 || s.starters != []
  }

  /** A wait saw a forward jump after the scene was ready exactly when it was not released, and only closing the
      monitoring releases it. */
  predicate WaitOk(useSim: bool, wait: Option<Wait>) {
    if useSim then
      && wait.Some?
      && (wait.value.resumed > wait.value.ready <==> !wait.value.released)
      && (wait.value.released ==> !wait.value.open)
    else wait == None
  }

  ghost predicate WaitingOk(c: C.Clock, f: nat, ready: nat) {
    && f < |c.futures| && ready <= c.forwardJumps
    && (c.open ==> c.future == Some(f) && c.timer.Some?)
    && match c.futures[f]
       case Waiting => c.open && c.forwardJumps == ready
       case Progressed => c.forwardJumps > ready
       case TimedOut => true
       case Cancelled => !c.open && c.forwardJumps == ready
  }

  /** The clock's wait follows the setup task: nothing is outstanding outside one iteration's setup. */
  ghost predicate ClockFollows(useSim: bool, pc: SetupPc, c: C.Clock) {
    && (!useSim ==> c == C.OPENED)
    && match pc
       case SettingUp(_, _) => useSim && c.open ==> c.future.Some? && c.timer == None
       case Waiting(_, _, f, ready) => useSim && WaitingOk(c, f, ready)
       case Failed(_, _) => true
       case Cleaning => true
       case Ready(_, _, wait) => WaitOk(useSim, wait)
       case Inserting(_, _, wait) => c.future == None && WaitOk(useSim, wait)
       case _ => c.future == None
  }

  ghost predicate StartsOk(useSim: bool, os: seq<Outcome>) {
    forall i :: 0 <= i < |os| && os[i].Started? ==> WaitOk(useSim, os[i].wait)
  }

  ghost predicate Inv(s: Coord) {
    && L.LifeInv(s.life) && C.ClockInv(s.clock)
    && (s.setupActive <==> !s.pc.Idle?)
    && Exclusive(s.pc, s.life.contexts.Keys, s.life.launching)
    && Conserved(s)
    && Awake(s)
    && ClockFollows(s.life.useSim, s.pc, s.clock)
    && StartsOk(s.life.useSim, s.outcomes)
  }

  lemma InitialOk(useSim: bool)
    ensures Inv(Initial(useSim))
  {
  }

  // ---------- requests keep the invariants ----------

  lemma AppendConserves(s: Coord, i: nat)
    requires Conserved(s) && RequestEnabled(s, Append(i))
    ensures Conserved(RequestNext(s, Append(i)))
  {
  }

  lemma RequestKeeps(s: Coord, step: RequestStep)
    requires Inv(s) && RequestEnabled(s, step)
    ensures Inv(RequestNext(s, step))
  {
    if step.Append? {
      AppendConserves(s, step.i);
    }
  }

  // ---------- the setup task keeps the invariants ----------

  lemma SetupLife(s: Coord, step: SetupStep)
    requires L.LifeInv(s.life) && SetupEnabled(s, step)
    ensures L.LifeInv(SetupNext(s, step).life) && SetupNext(s, step).life.useSim == s.life.useSim
  {
    match step
    case CreateContext(c) => L.LaunchKeeps(s.life, L.Create(c));
    case Register(launch) => L.LaunchKeeps(s.life, launch);
    case FailCleanup => L.CleanKeeps(s.life, L.Abort(s.pc.ctx));
    case InsertContext => L.LaunchKeeps(s.life, L.Insert(s.pc.ctx));
    case Activate(launch) => L.LaunchKeeps(s.life, launch);
    case AnnounceStart => L.LaunchKeeps(s.life, L.Announce(s.pc.ctx));
    case SendGoal => L.LaunchKeeps(s.life, L.Send(s.pc.ctx));
    case _ =>
  }

  lemma SetupClock(s: Coord, step: SetupStep)
    requires C.ClockInv(s.clock) && SetupEnabled(s, step)
    ensures C.ClockInv(SetupNext(s, step).clock)
  {
    match step
    case BeginSetup => C.PrepareKeeps(s.clock);
    case SceneReady(ok) => C.StartWaitKeeps(s.clock, ok);
    case ClearAfterFailure => C.ClearKeeps(s.clock);
    case ClearAfterSuccess => C.ClearKeeps(s.clock);
    case _ =>
  }

  predicate TouchesLife(step: SetupStep) {
    step.CreateContext? || step.Register? || step.FailCleanup? || step.InsertContext? || step.Activate?
    || step.AnnounceStart? || step.SendGoal?
  }

  lemma MoveExclusive(s: Coord, step: SetupStep)
    requires SetupEnabled(s, step) && !TouchesLife(step)
    requires Exclusive(s.pc, s.life.contexts.Keys, s.life.launching)
    ensures var s' := SetupNext(s, step); Exclusive(s'.pc, s'.life.contexts.Keys, s'.life.launching)
  {
    assert SetupNext(s, step).life == s.life;
  }

  /** The effect of a launch step on contexts and launches. */
  lemma LaunchEffect(l: L.Life, launch: L.LaunchStep)
    requires L.LaunchEnabled(l, launch)
    ensures var l' := L.LaunchNext(l, launch);
            match launch
            case Create(c) => l'.contexts == l.contexts && l'.launching == l.launching[c := L.Registering]
            case Insert(c) => l'.contexts.Keys == l.contexts.Keys + {c} && l'.launching == l.launching[c := L.Activating]
            case Announce(c) => l'.contexts == l.contexts && l'.launching == l.launching[c := L.Announced]
            case Send(c) => l'.contexts == l.contexts && l'.launching == l.launching - {c}
            case _ => true
  {
  }

  /** Registering topics and starting polling change neither. */
  lemma RegistrationEffect(l: L.Life, launch: L.LaunchStep)
    requires launch.RegisterPolicy? || launch.RegisterObservation? || launch.ActivateSim? || launch.ActivateTf?
    ensures L.LaunchNext(l, launch).contexts == l.contexts && L.LaunchNext(l, launch).launching == l.launching
  {
  }

  lemma CreateExclusive(v: Variation, c: Ctx, contexts: set<Ctx>, launching: map<Ctx, L.LaunchPc>)
    requires Exclusive(Popped(v), contexts, launching)
    ensures Exclusive(Creating(v, c), contexts, launching[c := L.Registering])
  {
  }

  lemma FailExclusive(v: Variation, c: Ctx, contexts: set<Ctx>, launching: map<Ctx, L.LaunchPc>)
    requires Exclusive(Failed(v, c), contexts, launching)
    ensures Exclusive(Cleaning, contexts, launching - {c})
  {
  }

  lemma InsertExclusive(v: Variation, c: Ctx, wait: Option<Wait>, contexts: set<Ctx>, launching: map<Ctx, L.LaunchPc>)
    requires Exclusive(Inserting(v, c, wait), contexts, launching)
    ensures Exclusive(Launching(c), contexts + {c}, launching[c := L.Activating])
  {
    assert launching[c := L.Activating] == map[c := L.Activating];
    assert contexts + {c} == {c};
  }

  lemma LaunchExclusive(c: Ctx, contexts: set<Ctx>, launching: map<Ctx, L.LaunchPc>)
    requires Exclusive(Launching(c), contexts, launching)
    ensures Exclusive(Sending(c), contexts, launching[c := L.Announced])
  {
    assert launching[c := L.Announced] == map[c := L.Announced];
  }

  lemma SendExclusive(c: Ctx, contexts: set<Ctx>, launching: map<Ctx, L.LaunchPc>)
    requires Exclusive(Sending(c), contexts, launching)
    ensures Exclusive(Leaving, contexts, launching - {c})
  {
    assert launching - {c} == map[];
  }

  lemma AbortEffect(l: L.Life, c: Ctx)
    requires L.CleanEnabled(l, L.Abort(c))
    ensures var l' := L.CleanNext(l, L.Abort(c)); l'.contexts == l.contexts && l'.launching == l.launching - {c}
  {
  }

  lemma LaunchStepExclusive(s: Coord, step: SetupStep)
    requires SetupEnabled(s, step) && (step.CreateContext? || step.InsertContext? || step.AnnounceStart? || step.SendGoal?)
    requires Exclusive(s.pc, s.life.contexts.Keys, s.life.launching)
    ensures var s' := SetupNext(s, step); Exclusive(s'.pc, s'.life.contexts.Keys, s'.life.launching)
  {
    var contexts, launching := s.life.contexts.Keys, s.life.launching;
    if step.CreateContext? {
      LaunchEffect(s.life, L.Create(step.ctx));
      CreateExclusive(s.pc.variation, step.ctx, contexts, launching);
    } else if step.InsertContext? {
      LaunchEffect(s.life, L.Insert(s.pc.ctx));
      InsertExclusive(s.pc.variation, s.pc.ctx, s.pc.wait, contexts, launching);
    } else if step.AnnounceStart? {
      LaunchEffect(s.life, L.Announce(s.pc.ctx));
      LaunchExclusive(s.pc.ctx, contexts, launching);
    } else {
      LaunchEffect(s.life, L.Send(s.pc.ctx));
      SendExclusive(s.pc.ctx, contexts, launching);
    }
  }

  lemma AbortExclusive(s: Coord)
    requires SetupEnabled(s, FailCleanup)
    requires Exclusive(s.pc, s.life.contexts.Keys, s.life.launching)
    ensures var s' := SetupNext(s, FailCleanup); Exclusive(s'.pc, s'.life.contexts.Keys, s'.life.launching)
  {
    AbortEffect(s.life, s.pc.ctx);
    FailExclusive(s.pc.variation, s.pc.ctx, s.life.contexts.Keys, s.life.launching);
  }

  lemma OwnStepExclusive(s: Coord, step: SetupStep)
    requires SetupEnabled(s, step) && (step.Register? || step.Activate?)
    requires Exclusive(s.pc, s.life.contexts.Keys, s.life.launching)
    ensures var s' := SetupNext(s, step); Exclusive(s'.pc, s'.life.contexts.Keys, s'.life.launching)
  {
    RegistrationEffect(s.life, step.launch);
    assert SetupNext(s, step) == s.(life := L.LaunchNext(s.life, step.launch));
  }

  lemma SetupExclusive(s: Coord, step: SetupStep)
    requires SetupEnabled(s, step)
    requires Exclusive(s.pc, s.life.contexts.Keys, s.life.launching)
    ensures var s' := SetupNext(s, step); Exclusive(s'.pc, s'.life.contexts.Keys, s'.life.launching)
  {
    if !TouchesLife(step) {
      MoveExclusive(s, step);
    } else if step.Register? || step.Activate? {
      OwnStepExclusive(s, step);
    } else if step.FailCleanup? {
      AbortExclusive(s);
    } else {
      LaunchStepExclusive(s, step);
    }
  }

  lemma OutcomeConserves(os: seq<Outcome>, o: Outcome)
    ensures Variations(os + [o]) == Variations(os) + [o.variation]
  {
  }

  lemma SettleConserves(s: Coord, step: SetupStep)
    requires Conserved(s) && SetupEnabled(s, step) && (step.FailCleanup? || step.InsertContext?)
    ensures Conserved(SetupNext(s, step))
  {
    if step.FailCleanup? {
      OutcomeConserves(s.outcomes, SetupFailed(s.pc.variation));
    } else {
      OutcomeConserves(s.outcomes, Started(s.pc.variation, s.pc.ctx, s.pc.wait));
    }
  }

  lemma PopConserves(s: Coord)
    requires Conserved(s) && SetupEnabled(s, Pop)
    ensures Conserved(SetupNext(s, Pop))
  {
  }

  lemma MoveConserves(s: Coord, step: SetupStep)
    requires SetupEnabled(s, step) && !step.Pop? && !step.FailCleanup? && !step.InsertContext?
    ensures var s' := SetupNext(s, step);
            && s'.enqueued == s.enqueued && s'.outcomes == s.outcomes && s'.pending == s.pending
            && InSetup(s'.pc) == InSetup(s.pc)
  {
  }

  lemma SetupConserved(s: Coord, step: SetupStep)
    requires Conserved(s) && SetupEnabled(s, step)
    ensures Conserved(SetupNext(s, step))
  {
    if step.Pop? {
      PopConserves(s);
    } else if step.FailCleanup? || step.InsertContext? {
      SettleConserves(s, step);
    } else {
      MoveConserves(s, step);
    }
  }

  lemma SetupStarts(s: Coord, step: SetupStep)
    requires ClockFollows(s.life.useSim, s.pc, s.clock) && SetupEnabled(s, step)
    requires StartsOk(s.life.useSim, s.outcomes)
    ensures StartsOk(s.life.useSim, SetupNext(s, step).outcomes)
  {
    if step.InsertContext? {
      assert WaitOk(s.life.useSim, s.pc.wait);
    }
  }

  predicate TouchesClock(step: SetupStep) {
    step.BeginSetup? || step.SceneReady? || step.Resume? || step.ClearAfterFailure? || step.ClearAfterSuccess?
  }

  lemma WaitFollows(s: Coord, step: SetupStep)
    requires C.ClockInv(s.clock) && ClockFollows(s.life.useSim, s.pc, s.clock) && SetupEnabled(s, step)
    requires step.BeginSetup? || step.SceneReady? || step.Resume?
    ensures var s' := SetupNext(s, step); ClockFollows(s.life.useSim, s'.pc, s'.clock)
  {
  }

  lemma ClearFollows(s: Coord, step: SetupStep)
    requires C.ClockInv(s.clock) && ClockFollows(s.life.useSim, s.pc, s.clock) && SetupEnabled(s, step)
    requires step.ClearAfterFailure? || step.ClearAfterSuccess?
    ensures var s' := SetupNext(s, step); ClockFollows(s.life.useSim, s'.pc, s'.clock)
  {
  }

  lemma OtherFollows(s: Coord, step: SetupStep)
    requires ClockFollows(s.life.useSim, s.pc, s.clock) && SetupEnabled(s, step) && !TouchesClock(step)
    ensures var s' := SetupNext(s, step); ClockFollows(s.life.useSim, s'.pc, s'.clock)
  {
    assert SetupNext(s, step).clock == s.clock;
  }

  lemma SetupFollows(s: Coord, step: SetupStep)
    requires C.ClockInv(s.clock) && ClockFollows(s.life.useSim, s.pc, s.clock) && SetupEnabled(s, step)
    ensures var s' := SetupNext(s, step); ClockFollows(s.life.useSim, s'.pc, s'.clock)
  {
    if !TouchesClock(step) {
      OtherFollows(s, step);
    } else if step.ClearAfterFailure? || step.ClearAfterSuccess? {
      ClearFollows(s, step);
    } else {
      WaitFollows(s, step);
    }
  }

  lemma SetupAwake(s: Coord, step: SetupStep)
    requires Awake(s) && (s.setupActive <==> !s.pc.Idle?) && SetupEnabled(s, step)
    ensures var s' := SetupNext(s, step); Awake(s') && (s'.setupActive <==> !s'.pc.Idle?)
  {
  }

  lemma SetupKeeps(s: Coord, step: SetupStep)
    requires Inv(s) && SetupEnabled(s, step)
    ensures Inv(SetupNext(s, step))
  {
    SetupLife(s, step);
    SetupClock(s, step);
    SetupExclusive(s, step);
    SetupConserved(s, step);
    SetupFollows(s, step);
    SetupStarts(s, step);
    SetupAwake(s, step);
  }

  // ---------- the world keeps the invariants ----------

  lemma {:induction false} FewerElements<T>(small: set<T>, large: set<T>)
    requires small <= large
    ensures |small| <= |large|
  {
    if small != {} {
      var x :| x in small;
      FewerElements(small - {x}, large - {x});
    }
  }

  /** A step that removes live contexts, and launches none, keeps the exclusion, if it spares the one being launched. */
  lemma FewerExclusive(pc: SetupPc, contexts: set<Ctx>, contexts': set<Ctx>, launching: map<Ctx, L.LaunchPc>)
    requires Exclusive(pc, contexts, launching) && contexts' <= contexts
    requires pc.Launching? ==> contexts' == contexts
    ensures Exclusive(pc, contexts', launching)
  {
    FewerElements(contexts', contexts);
  }

  lemma SparesLaunching(l: L.Life, pc: SetupPc, rs: set<Ctx>)
    requires L.Retirable(l, rs) && Exclusive(pc, l.contexts.Keys, l.launching)
    ensures pc.Launching? ==> l.contexts.Keys - rs == l.contexts.Keys
  {
    if pc.Launching? {
      assert l.launching[pc.ctx] == L.Activating;
      assert pc.ctx !in rs;
    }
  }

  lemma TimerEffect(l: L.Life, now: int)
    ensures var l' := L.CleanNext(l, L.Timer(now));
            && l'.contexts.Keys == l.contexts.Keys - L.DueSet(l, now)
            && l'.launching == l.launching && l'.created == l.created && l'.useSim == l.useSim
  {
    assert L.SendEnds(l, now).contexts.Keys == l.contexts.Keys;
  }

  lemma TimerExclusive(l: L.Life, pc: SetupPc, now: int)
    requires L.StagesOk(l) && Exclusive(pc, l.contexts.Keys, l.launching)
    ensures var l' := L.CleanNext(l, L.Timer(now)); Exclusive(pc, l'.contexts.Keys, l'.launching)
  {
    var rs := L.DueSet(l, now);
    L.DueRetirable(l, now);
    SparesLaunching(l, pc, rs);
    FewerExclusive(pc, l.contexts.Keys, l.contexts.Keys - rs, l.launching);
    TimerEffect(l, now);
  }

  lemma TimerKeeps(s: Coord, now: int)
    requires Inv(s)
    ensures Inv(WorldNext(s, StatusTimer(now)))
  {
    L.CleanKeeps(s.life, L.Timer(now));
    TimerExclusive(s.life, s.pc, now);
    TimerEffect(s.life, now);
  }

  lemma DropConserves(s: Coord)
    requires Conserved(s) && InSetup(s.pc) == []
    ensures Conserved(s.(pending := [], outcomes := s.outcomes + Drops(s.pending)))
  {
    assert Variations(s.outcomes + Drops(s.pending)) == Variations(s.outcomes) + s.pending;
  }

  lemma DropStarts(useSim: bool, os: seq<Outcome>, vs: seq<Variation>)
    requires StartsOk(useSim, os)
    ensures StartsOk(useSim, os + Drops(vs))
  {
  }

  lemma HandleEffect(l: L.Life, i: nat)
    requires L.CleanEnabled(l, L.Handle(i))
    ensures var l', rs := L.CleanNext(l, L.Handle(i)), L.Failing(l, l.deferred[i]);
            l'.contexts == l.contexts - rs && l'.launching == l.launching && l'.created == l.created && l'.useSim == l.useSim
            && l'.contexts.Keys == l.contexts.Keys - rs
  {
  }

  lemma HandlerExclusive(l: L.Life, pc: SetupPc, i: nat)
    requires L.StagesOk(l) && Exclusive(pc, l.contexts.Keys, l.launching) && L.CleanEnabled(l, L.Handle(i))
    ensures var life' := L.CleanNext(l, L.Handle(i)); Exclusive(pc, life'.contexts.Keys, life'.launching)
    ensures L.Failing(l, l.deferred[i]) != {} ==> InSetup(pc) == []
  {
    var rs := L.Failing(l, l.deferred[i]);
    L.FailingRetirable(l, l.deferred[i]);
    SparesLaunching(l, pc, rs);
    FewerExclusive(pc, l.contexts.Keys, l.contexts.Keys - rs, l.launching);
    HandleEffect(l, i);
    assert rs <= l.contexts.Keys;
  }

  lemma HandlerLife(s: Coord, i: nat)
    requires Inv(s) && WorldEnabled(s, ResetHandler(i))
    ensures var life' := L.CleanNext(s.life, L.Handle(i));
            L.LifeInv(life') && Exclusive(s.pc, life'.contexts.Keys, life'.launching)
    ensures L.Failing(s.life, s.life.deferred[i]) != {} ==> InSetup(s.pc) == []
  {
    L.CleanKeeps(s.life, L.Handle(i));
    HandlerExclusive(s.life, s.pc, i);
  }

  lemma HandlerKeeps(s: Coord, i: nat)
    requires Inv(s) && WorldEnabled(s, ResetHandler(i))
    ensures Inv(WorldNext(s, ResetHandler(i)))
  {
    HandlerLife(s, i);
    HandleEffect(s.life, i);
    if L.Failing(s.life, s.life.deferred[i]) != {} {
      DropConserves(s);
      DropStarts(s.life.useSim, s.outcomes, s.pending);
    }
  }

  lemma NoKeysNoMap(m: map<Ctx, L.Context>, m': map<Ctx, L.Context>)
    requires m.Keys == m'.Keys
    ensures m == map[] <==> m' == map[]
  {
    if m == map[] {
      assert m'.Keys == {};
    }
    if m' == map[] {
      assert m.Keys == {};
    }
  }

  lemma ListenedKeeps(s: Coord, listen: L.ListenStep)
    requires Inv(s) && L.ListenEnabled(s.life, listen)
    ensures Inv(s.(life := L.ListenNext(s.life, listen)))
  {
    L.ListenKeeps(s.life, listen);
    L.ListenEffect(s.life, listen);
    NoKeysNoMap(s.life.contexts, L.ListenNext(s.life, listen).contexts);
  }

  lemma CallbackClock(c: C.Clock, step: WorldStep)
    requires C.ClockInv(c) && IsCallback(step) && (step.Timeout? ==> step.t < |c.timers|)
    ensures C.ClockInv(Callback(c, step))
  {
    match step
    case Jump(delta, now) => C.JumpKeeps(c, delta, now);
    case Timeout(t) => C.FireKeeps(c, t);
    case Destroy => C.CloseKeeps(c);
  }

  lemma NewClock(s: Coord, clock': C.Clock)
    requires Inv(s) && C.ClockInv(clock') && ClockFollows(s.life.useSim, s.pc, clock')
    ensures Inv(s.(clock := clock'))
  {
  }

  lemma FollowsCallback(useSim: bool, pc: SetupPc, c: C.Clock, step: WorldStep)
    requires useSim && C.ClockInv(c) && ClockFollows(useSim, pc, c)
    requires IsCallback(step) && (step.Timeout? ==> step.t < |c.timers|)
    ensures ClockFollows(useSim, pc, Callback(c, step))
  {
  }

  lemma ClockCallbackKeeps(s: Coord, step: WorldStep)
    requires Inv(s) && IsCallback(step) && WorldEnabled(s, step)
    ensures Inv(s.(clock := Callback(s.clock, step)))
  {
    CallbackClock(s.clock, step);
    FollowsCallback(s.life.useSim, s.pc, s.clock, step);
    NewClock(s, Callback(s.clock, step));
  }

  lemma WorldKeeps(s: Coord, step: WorldStep)
    requires Inv(s) && WorldEnabled(s, step)
    ensures Inv(WorldNext(s, step))
  {
    match step
    case Listens(listen) => ListenedKeeps(s, listen);
    case StatusTimer(now) => TimerKeeps(s, now);
    case ResetHandler(i) => HandlerKeeps(s, i);
    case Jump(delta, now) =>
      ClockCallbackKeeps(s, step);
      if s.clock.open && delta < 0 {
        ListenedKeeps(s.(clock := Callback(s.clock, step)), L.ClockReset);
      }
    case Timeout(_) => ClockCallbackKeeps(s, step);
    case Destroy => ClockCallbackKeeps(s, step);
  }

  // ---------- every reachable state ----------

  ghost predicate Moves(s: Coord, step: Step, s': Coord) {
    Enabled(s, step) && s' == Apply(s, step)
  }

  ghost predicate IsRun(states: seq<Coord>, steps: seq<Step>) {
    && |states| == |steps| + 1 && states[0] == Initial(states[0].life.useSim)
    && forall i :: 0 <= i < |steps| ==> Moves(states[i], steps[i], states[i + 1])
  }

  lemma StepKeeps(s: Coord, step: Step)
    requires Inv(s) && Enabled(s, step)
    ensures Inv(Apply(s, step))
  {
    match step
    case Ask(r) => RequestKeeps(s, r);
    case Task(t) => SetupKeeps(s, t);
    case World(w) => WorldKeeps(s, w);
  }

  ghost predicate Preserved(s: Coord, s': Coord) {
    Inv(s) ==> Inv(s')
  }

  lemma MovesKeep(s: Coord, step: Step, s': Coord)
    requires Moves(s, step, s')
    ensures Preserved(s, s')
  {
    if Inv(s) {
      StepKeeps(s, step);
    }
  }

  lemma {:induction false} InvariantEverywhere(states: seq<Coord>, n: nat)
    requires n < |states| && Inv(states[0])
    requires forall i :: 0 <= i < |states| - 1 ==> Preserved(states[i], states[i + 1])
    ensures Inv(states[n])
  {
    if n > 0 {
      InvariantEverywhere(states, n - 1);
      assert Preserved(states[n - 1], states[n]);
    }
  }

  lemma AlwaysOk(states: seq<Coord>, steps: seq<Step>, n: nat)
    requires IsRun(states, steps) && n < |states|
    ensures Inv(states[n])
  {
    InitialOk(states[0].life.useSim);
    forall i | 0 <= i < |states| - 1 ensures Preserved(states[i], states[i + 1]) {
      MovesKeep(states[i], steps[i], states[i + 1]);
    }
    InvariantEverywhere(states, n);
  }

  // ---------- what every run guarantees ----------

  /** At most one context is active, none while another is being set up, and no setup task is started while one is
      under way. */
  lemma OneAtATime(states: seq<Coord>, steps: seq<Step>, n: nat)
    requires IsRun(states, steps) && n < |states|
    ensures |states[n].life.contexts| <= 1
    ensures InSetup(states[n].pc) != [] ==> states[n].life.contexts == map[]
    ensures n < |steps| && steps[n].Ask? && steps[n].request.Schedule? && states[n + 1].pc != states[n].pc ==>
              states[n].pc.Idle? && states[n].life.contexts == map[]
  {
    AlwaysOk(states, steps, n);
    var s := states[n];
    assert |s.life.contexts| == |s.life.contexts.Keys|;
    if InSetup(s.pc) != [] {
      assert s.life.contexts.Keys == {};
    }
  }

  /** In queue order, every enqueued variation has started, has failed its setup or was dropped by a reset, or it is
      being set up, or it is pending: none is lost, repeated or overtaken. */
  lemma QueueConserved(states: seq<Coord>, steps: seq<Step>, n: nat)
    requires IsRun(states, steps) && n < |states|
    ensures states[n].enqueued == Variations(states[n].outcomes) + InSetup(states[n].pc) + states[n].pending
  {
    AlwaysOk(states, steps, n);
  }

  /** Outcomes are final, and only a reset handler that fails a context drops variations. */
  lemma OutcomesGrow(s: Coord, step: Step)
    requires Enabled(s, step)
    ensures s.outcomes <= Apply(s, step).outcomes && s.enqueued <= Apply(s, step).enqueued
    ensures forall i :: |s.outcomes| <= i < |Apply(s, step).outcomes| && Apply(s, step).outcomes[i].Dropped? ==>
              step.World? && step.world.ResetHandler?
              && L.Failing(s.life, s.life.deferred[step.world.i]) != {}
  {
  }

  /** No lost wake-up: with work pending, nothing active and no setup, some caller is on its way to schedule. */
  lemma NoLostWakeup(states: seq<Coord>, steps: seq<Step>, n: nat)
    requires IsRun(states, steps) && n < |states|
    requires states[n].pending != [] && states[n].life.contexts == map[] && !states[n].setupActive
    ensures states[n].wakers > 0 || states[n].starters != []
  {
    AlwaysOk(states, steps, n);
  }

  /** Nothing is left to run: no caller before the scheduler, no start request, no setup task. */
  predicate Quiet(s: Coord) {
    s.wakers == 0 && s.starters == [] && s.pc.Idle?
  }

  lemma QuietMeansDoneOrRunning(states: seq<Coord>, steps: seq<Step>, n: nat)
    requires IsRun(states, steps) && n < |states| && Quiet(states[n])
    ensures states[n].pending == [] || |states[n].life.contexts| == 1
  {
    AlwaysOk(states, steps, n);
    OneAtATime(states, steps, n);
    if states[n].pending != [] {
      assert states[n].life.contexts != map[];
    }
  }

  /** Under simulated time, while the monitoring is open, each setup finds no outstanding wait, whatever way the one
      before ended. */
  lemma SetupFindsNoWait(states: seq<Coord>, steps: seq<Step>, n: nat)
    requires IsRun(states, steps) && n < |states| && states[n].pc.Creating? && states[n].life.useSim
    ensures C.PrepareError(states[n].clock) == if states[n].clock.open then None else Some(C.Closed)
  {
    AlwaysOk(states, steps, n);
  }

  /** Under simulated time a started scenario saw a forward jump, delivered after its own scene was ready, exactly when
      its wait was not released; only a wait whose monitoring has been closed is released. */
  lemma StartsAfterProgress(states: seq<Coord>, steps: seq<Step>, n: nat, i: nat)
    requires IsRun(states, steps) && n < |states| && states[n].life.useSim
    requires i < |states[n].outcomes| && states[n].outcomes[i].Started?
    ensures var wait := states[n].outcomes[i].wait;
            && wait.Some?
            && (wait.value.resumed > wait.value.ready <==> !wait.value.released)
            && (wait.value.released ==> !wait.value.open)
  {
    AlwaysOk(states, steps, n);
  }

  /** Closing the monitoring releases any unfinished wait, and the scenario goes on with no progress since its scene was
      ready. */
  lemma ClosingReleasesTheWait(s: Coord)
    requires Inv(s) && s.life.useSim && s.pc.Waiting? && s.clock.futures[s.pc.future].Waiting?
    ensures var s' := Apply(s, World(Destroy));
            && Enabled(s', Task(Resume))
            && Apply(s', Task(Resume)).pc
               == Ready(s.pc.variation, s.pc.ctx, Some(Wait(s.pc.ready, s.pc.ready, false, true)))
  {
    assert s.clock.future == Some(s.pc.future);
    assert Callback(s.clock, Destroy).futures[s.pc.future].Cancelled?;
  }

  /** Each registered context is active, or, for the topic registries only, the one in setup; whatever else was ever
      registered is gone and its polling handles are cancelled. */
  ghost predicate RegisteredRightly(l: L.Life, preparing: set<Ctx>, c: Ctx) {
    && (c !in l.contexts && c !in preparing ==> L.Unregistered(l, c))
    && (c !in l.contexts ==> (forall k :: k in l.simHandles ==> k.0 != c) && (forall k :: k in l.tfHandles ==> k.0 != c))
    && L.HandlesAccounted(l)
  }

  lemma OnlyPreparing(pc: SetupPc, contexts: set<Ctx>, launching: map<Ctx, L.LaunchPc>, c: Ctx)
    requires Exclusive(pc, contexts, launching) && c !in Preparing(pc)
    ensures !(c in launching && launching[c].Registering?)
  {
    if pc.Launching? || pc.Sending? {
      assert c in launching ==> c == pc.ctx;
    }
  }

  lemma NoneRegistered(l: L.Life, c: Ctx)
    requires L.RegistriesOk(l) && L.HandlesLive(l.simHandles, l.contexts) && L.HandlesLive(l.tfHandles, l.contexts)
    requires c !in l.contexts && !L.InPc(l, c, L.Registering)
    ensures L.Unregistered(l, c)
  {
  }

  lemma Accounted(l: L.Life)
    requires L.PollingOk(l)
    ensures L.HandlesAccounted(l)
  {
  }

  lemma InvRegistered(l: L.Life, pc: SetupPc, c: Ctx)
    requires L.RegistriesOk(l) && L.PollingOk(l) && Exclusive(pc, l.contexts.Keys, l.launching)
    ensures RegisteredRightly(l, Preparing(pc), c)
  {
    Accounted(l);
    if c !in l.contexts && c !in Preparing(pc) {
      OnlyPreparing(pc, l.contexts.Keys, l.launching, c);
      NoneRegistered(l, c);
    }
  }

  lemma RegistriesAgree(states: seq<Coord>, steps: seq<Step>, n: nat, c: Ctx)
    requires IsRun(states, steps) && n < |states|
    ensures RegisteredRightly(states[n].life, Preparing(states[n].pc), c)
  {
    AlwaysOk(states, steps, n);
    InvRegistered(states[n].life, states[n].pc, c);
  }

  /** Resets, deferred handlers, timer and goal responses, interleaved with the whole scheduler. */
  lemma ResetRace(states: seq<Coord>, steps: seq<Step>, n: nat, c: Ctx)
    requires IsRun(states, steps) && n < |states| && c in states[n].life.retired
    ensures L.SettledOnce(states[n].life, c)
  {
    AlwaysOk(states, steps, n);
    L.RetiredSettledOnce(states[n].life, c);
  }

  // ---------- the setup loop terminates ----------

  function Rank(pc: SetupPc): nat {
    match pc
    case Idle => 0
    case Leaving => 1
    case LoopTop => 2
    case Sending(_) => 2
    case Claimed => 3
    case Cleaning => 3
    case Launching(_) => 3
    case Failed(_, _) => 4
    case Inserting(_, _, _) => 4
    case Ready(_, _, _) => 5
    case Waiting(_, _, _, _) => 6
    case SettingUp(_, _) => 7
    case Creating(_, _) => 8
    case Popped(_) => 9
  }

  /** What is left of a setup task whose queue is not refilled. */
  function Fuel(s: Coord): nat {
    8 * |s.pending| + Rank(s.pc)
  }

  /** The steps at which the task moves on. */
  predicate Advances(step: Step) {
    step.Task? && !step.setup.Register? && !step.setup.Activate?
  }

  lemma PopSpends(s: Coord)
    requires SetupEnabled(s, Pop)
    ensures Fuel(SetupNext(s, Pop)) < Fuel(s)
  {
  }

  lemma MoveSpends(s: Coord, step: SetupStep)
    requires SetupEnabled(s, step) && !step.Pop?
    ensures var s' := SetupNext(s, step);
            && s'.pending == s.pending
            && if step.Register? || step.Activate? then s'.pc == s.pc else Rank(s'.pc) < Rank(s.pc)
  {
  }

  lemma AdvanceSpends(s: Coord, step: SetupStep)
    requires SetupEnabled(s, step)
    ensures if step.Register? || step.Activate? then Fuel(SetupNext(s, step)) == Fuel(s)
            else Fuel(SetupNext(s, step)) < Fuel(s)
  {
    if step.Pop? {
      PopSpends(s);
    } else {
      MoveSpends(s, step);
    }
  }

  lemma WorldSpendsNothing(s: Coord, step: WorldStep)
    requires WorldEnabled(s, step)
    ensures Fuel(WorldNext(s, step)) <= Fuel(s)
  {
  }

  lemma AskSpendsNothing(s: Coord, step: RequestStep)
    requires Inv(s) && RequestEnabled(s, step) && !step.Append? && !s.pc.Idle?
    ensures Fuel(RequestNext(s, step)) == Fuel(s)
  {
  }

  lemma StepSpends(s: Coord, step: Step)
    requires Inv(s) && Enabled(s, step) && !s.pc.Idle? && !(step.Ask? && step.request.Append?)
    ensures (if Advances(step) then 1 else 0) + Fuel(Apply(s, step)) <= Fuel(s)
  {
    match step
    case Ask(r) => AskSpendsNothing(s, r);
    case Task(t) => AdvanceSpends(s, t);
    case World(w) => WorldSpendsNothing(s, w);
  }

  predicate Spends(step: Step, before: nat, after: nat) {
    (if Advances(step) then 1 else 0) + after <= before
  }

  /** A setup task is under way and the step enqueues nothing. */
  predicate Undisturbed(s: Coord, step: Step) {
    !s.pc.Idle? && !(step.Ask? && step.request.Append?)
  }

  lemma RunSpends(states: seq<Coord>, steps: seq<Step>, k: nat)
    requires IsRun(states, steps) && k < |steps| && Undisturbed(states[k], steps[k])
    ensures Spends(steps[k], Fuel(states[k]), Fuel(states[k + 1]))
  {
    AlwaysOk(states, steps, k);
    assert Moves(states[k], steps[k], states[k + 1]);
    StepSpends(states[k], steps[k]);
  }

  function Advanced(steps: seq<Step>): nat {
    if steps == [] then 0 else Advanced(steps[..|steps| - 1]) + if Advances(steps[|steps| - 1]) then 1 else 0
  }

  lemma AdvancedSnoc(steps: seq<Step>, step: Step)
    ensures Advanced(steps + [step]) == Advanced(steps) + if Advances(step) then 1 else 0
  {
    assert (steps + [step])[..|steps|] == steps;
  }

  lemma {:induction false} SpentInAll(steps: seq<Step>, fuels: seq<nat>, i: nat, n: nat)
    requires |fuels| == |steps| + 1 && i <= n < |fuels|
    requires forall k :: i <= k < n ==> Spends(steps[k], fuels[k], fuels[k + 1])
    ensures Advanced(steps[i..n]) + fuels[n] <= fuels[i]
    decreases n
  {
    if i < n {
      SpentInAll(steps, fuels, i, n - 1);
      AdvancedSnoc(steps[i..n - 1], steps[n - 1]);
      assert steps[i..n] == steps[i..n - 1] + [steps[n - 1]];
      assert Spends(steps[n - 1], fuels[n - 1], fuels[n]);
    }
  }

  function Fuels(states: seq<Coord>): (fuels: seq<nat>)
    ensures |fuels| == |states|
  {
    seq(|states|, k requires 0 <= k < |states| => Fuel(states[k]))
  }

  lemma AllSpend(states: seq<Coord>, steps: seq<Step>, i: nat, n: nat)
    requires IsRun(states, steps) && i <= n < |states|
    requires forall k :: i <= k < n ==> Undisturbed(states[k], steps[k])
    ensures forall k :: i <= k < n ==> Spends(steps[k], Fuels(states)[k], Fuels(states)[k + 1])
  {
    forall k | i <= k < n ensures Spends(steps[k], Fuels(states)[k], Fuels(states)[k + 1]) {
      RunSpends(states, steps, k);
    }
  }

  /** While no start request enqueues, a setup task moves on at most `Fuel` times before it is over, whatever runs
      in between. */
  lemma SetupTerminates(states: seq<Coord>, steps: seq<Step>, i: nat, n: nat)
    requires IsRun(states, steps) && i <= n < |states|
    requires forall k :: i <= k < n ==> Undisturbed(states[k], steps[k])
    ensures Advanced(steps[i..n]) + Fuel(states[n]) <= Fuel(states[i])
  {
    AllSpend(states, steps, i, n);
    SpentInAll(steps, Fuels(states), i, n);
  }
}
