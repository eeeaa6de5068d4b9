/** The scheduler's runs, seen through their contexts, are runs of the lifecycle, so its laws hold in them. */
module LifeProjection {
  import opened StatusMessages
  import L = Lifecycle
  import opened Coordinator

  function TaskLife(s: Coord, step: SetupStep): Option<L.LifeStep> {
    match step
    case CreateContext(c) => Some(L.Launch(L.Create(c)))
    case Register(launch) => Some(L.Launch(launch))
    case FailCleanup => if s.pc.Failed? then Some(L.Clean(L.Abort(s.pc.ctx))) else None
    case InsertContext => if s.pc.Inserting? then Some(L.Launch(L.Insert(s.pc.ctx))) else None
    case Activate(launch) => Some(L.Launch(launch))
    case AnnounceStart => if s.pc.Launching? then Some(L.Launch(L.Announce(s.pc.ctx))) else None
    case SendGoal => if s.pc.Sending? then Some(L.Launch(L.Send(s.pc.ctx))) else None
    case _ => None
  }

  function WorldLife(s: Coord, step: WorldStep): Option<L.LifeStep> {
    match step
    case Listens(listen) => Some(L.Listen(listen))
    case StatusTimer(now) => if s.life.contexts == map[] then None else Some(L.Clean(L.Timer(now)))
    case ResetHandler(i) => Some(L.Clean(L.Handle(i)))
    case Jump(delta, _) => if s.clock.open && delta < 0 then Some(L.Listen(L.ClockReset)) else None
    case _ => None
  }

  /** What a step of the scheduler does to the contexts, if anything. */
  function LifeOf(s: Coord, step: Step): Option<L.LifeStep> {
    match step
    case Ask(_) => None
    case Task(t) => TaskLife(s, t)
    case World(w) => WorldLife(s, w)
  }

  ghost predicate Stutters(l: L.Life, step: Option<L.LifeStep>, l': L.Life) {
    match step
    case None => l' == l
    case Some(move) => L.LifeMoves(l, move, l')
  }

  lemma TaskProjects(s: Coord, step: SetupStep)
    requires SetupEnabled(s, step)
    ensures Stutters(s.life, TaskLife(s, step), SetupNext(s, step).life)
  {
  }

  lemma WorldProjects(s: Coord, step: WorldStep)
    requires WorldEnabled(s, step)
    ensures Stutters(s.life, WorldLife(s, step), WorldNext(s, step).life)
  {
  }

  lemma StepProjects(s: Coord, step: Step)
    requires Enabled(s, step)
    ensures Stutters(s.life, LifeOf(s, step), Apply(s, step).life)
  {
    match step
    case Ask(_) =>
    case Task(t) => TaskProjects(s, t);
    case World(w) => WorldProjects(s, w);
  }

  /** Position `at[i]` of the lifecycle's run shows the contexts of position `i`. */
  ghost predicate Shows(states: seq<Coord>, lives: seq<L.Life>, at: seq<nat>, n: nat) {
    && n < |states| && |at| == n + 1
    && (forall i :: 0 <= i <= n ==> at[i] < |lives| && lives[at[i]] == states[i].life)
    && (forall i, j :: 0 <= i <= j <= n ==> at[i] <= at[j])
    && at[n] == |lives| - 1
  }

  lemma ShowsMore(states: seq<Coord>, lives: seq<L.Life>, at: seq<nat>, n: nat, lives': seq<L.Life>)
    requires Shows(states, lives, at, n) && n + 1 < |states| && lives <= lives' && |lives'| <= |lives| + 1
    requires lives'[|lives'| - 1] == states[n + 1].life
    ensures Shows(states, lives', at + [|lives'| - 1], n + 1)
  {
  }

  lemma LifeRunOn(lives: seq<L.Life>, moves: seq<L.LifeStep>, move: L.LifeStep, l': L.Life)
    requires L.LifeRun(lives, moves) && L.LifeMoves(lives[|moves|], move, l')
    ensures L.LifeRun(lives + [l'], moves + [move])
  {
    forall i | 0 <= i < |moves| + 1 ensures L.LifeMoves((lives + [l'])[i], (moves + [move])[i], (lives + [l'])[i + 1]) {
      if i < |moves| {
        assert L.LifeMoves(lives[i], moves[i], lives[i + 1]);
      }
    }
  }

  lemma {:induction false} Projects(states: seq<Coord>, steps: seq<Step>, n: nat)
    returns (lives: seq<L.Life>, moves: seq<L.LifeStep>, at: seq<nat>)
    requires IsRun(states, steps) && n < |states|
    ensures L.LifeRun(lives, moves) && Shows(states, lives, at, n)
  {
    if n == 0 {
      lives, moves, at := [states[0].life], [], [0];
    } else {
      lives, moves, at := Projects(states, steps, n - 1);
      assert Moves(states[n - 1], steps[n - 1], states[n]);
      StepProjects(states[n - 1], steps[n - 1]);
      var before := lives;
      match LifeOf(states[n - 1], steps[n - 1]) {
        case None =>
        case Some(move) =>
          LifeRunOn(lives, moves, move, states[n].life);
          lives, moves := lives + [states[n].life], moves + [move];
      }
      ShowsMore(states, before, at, n - 1, lives);
      at := at + [|lives| - 1];
    }
  }

  /** Within the scheduler, too, a reset's handler leaves alone every context created after the reset. */
  lemma LaterContextsUntouched(states: seq<Coord>, steps: seq<Step>, i: nat, n: nat, j: nat, k: nat, c: Ctx)
    requires IsRun(states, steps) && i <= n < |states|
    requires j < |states[i].life.deferred| && k < |states[n].life.deferred|
    requires states[n].life.deferred[k] == states[i].life.deferred[j]
    requires c !in states[i].life.created
    ensures L.SameFootprint(states[n].life, WorldNext(states[n], ResetHandler(k)).life, c)
  {
    var lives, moves, at := Projects(states, steps, n);
    L.LaterContextsUntouched(lives, moves, at[i], at[n], j, k, c);
  }

  /** And a context that is neither live nor being created has left nothing behind. */
  lemma NothingLeftBehind(states: seq<Coord>, steps: seq<Step>, n: nat, c: Ctx)
    requires IsRun(states, steps) && n < |states|
    requires c !in states[n].life.contexts && !L.InPc(states[n].life, c, L.Registering)
    ensures L.Unregistered(states[n].life, c) && L.HandlesAccounted(states[n].life)
  {
    var lives, moves, at := Projects(states, steps, n);
    L.NothingLeftBehind(lives, moves, at[n], c);
  }
}
