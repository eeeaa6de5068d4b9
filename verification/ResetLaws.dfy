/** What a backward clock jump and the handlers it defers do, in every run of the lifecycle and of the scheduler. */
module ResetLaws {
  import opened StatusMessages
  import L = Lifecycle
  import opened StepEffects
  import opened Coordinator
  import LifeProjection

  // ---------- one context, from its capture to its retirement ----------

  /** The context is retired, or it is live and started and a handler that has captured it is still to run. */
  ghost predicate RetiredOrAwaited(l: L.Life, c: Ctx) {
    c in l.retired || (LiveAndStarted(l, c) && exists i :: 0 <= i < |l.deferred| && c in l.deferred[i])
  }

  lemma LaunchAwaits(l: L.Life, step: L.LaunchStep, c: Ctx)
    requires L.StagesOk(l) && L.LaunchEnabled(l, step) && RetiredOrAwaited(l, c)
    ensures RetiredOrAwaited(L.LaunchNext(l, step), c)
  {
    var l' := L.LaunchNext(l, step);
    assert l'.deferred == l.deferred && l'.retired == l.retired;
    if step.Insert? {
      assert L.LaunchOk(l.launching[step.ctx], step.ctx, l.contexts, l.retired.Keys);
    }
  }

  lemma AcceptedAwaits(l: L.Life, d: Ctx, c: Ctx)
    requires d in l.contexts && RetiredOrAwaited(l, c)
    ensures RetiredOrAwaited(L.AcceptLive(l, d), c)
  {
    assert L.AcceptLive(l, d).deferred == l.deferred && L.AcceptLive(l, d).retired == l.retired;
  }

  lemma SameAwaits(l: L.Life, l': L.Life, c: Ctx)
    requires RetiredOrAwaited(l, c)
    requires l'.contexts == l.contexts && l'.deferred == l.deferred && l'.retired == l.retired
    ensures RetiredOrAwaited(l', c)
  {
  }

  lemma UnacceptedAwaits(l: L.Life, d: Ctx, c: Ctx)
    requires RetiredOrAwaited(l, c)
    ensures RetiredOrAwaited(L.RejectLive(l, d), c) && RetiredOrAwaited(L.RejectLate(l, d), c)
    ensures RetiredOrAwaited(L.AcceptLate(l, d), c)
  {
    SameAwaits(l, L.RejectLive(l, d), c);
    SameAwaits(l, L.RejectLate(l, d), c);
    SameAwaits(l, L.AcceptLate(l, d), c);
  }

  lemma RespondAwaits(l: L.Life, d: Ctx, accepted: bool, c: Ctx)
    requires RetiredOrAwaited(l, c)
    ensures RetiredOrAwaited(L.Respond(l, d, accepted), c)
  {
    UnacceptedAwaits(l, d, c);
    if d in l.contexts && accepted {
      AcceptedAwaits(l, d, c);
    }
  }

  lemma ListenAwaits(l: L.Life, step: L.ListenStep, c: Ctx)
    requires L.ListenEnabled(l, step) && RetiredOrAwaited(l, c)
    ensures RetiredOrAwaited(L.ListenNext(l, step), c)
  {
    match step
    case Observe(_, _) => assert L.ListenNext(l, step).deferred == l.deferred;
    case ClockReset =>
      ResetExactly(l);
      assert l.deferred <= L.ListenNext(l, step).deferred;
    case Response(d, accepted) => RespondAwaits(l, d, accepted, c);
  }

  lemma HandlerAwaits(l: L.Life, k: nat, c: Ctx)
    requires L.StagesOk(l) && k < |l.deferred| && RetiredOrAwaited(l, c)
    ensures RetiredOrAwaited(L.CleanNext(l, L.Handle(k)), c)
  {
    HandlerExactly(l, k, c);
    var l' := L.CleanNext(l, L.Handle(k));
    if c !in l.retired && c !in l.deferred[k] {
      var i :| 0 <= i < |l.deferred| && c in l.deferred[i];
      assert c in l'.deferred[if i < k then i else i - 1];
    }
  }

  lemma TimerAwaits(l: L.Life, now: int, c: Ctx)
    requires L.StagesOk(l) && RetiredOrAwaited(l, c)
    ensures RetiredOrAwaited(L.CleanNext(l, L.Timer(now)), c)
  {
    if c in l.contexts {
      TimerExactly(l, now, c);
      assert L.CleanNext(l, L.Timer(now)).deferred == l.deferred;
    } else {
      TimerKeepsRest(l, now, c);
    }
  }

  lemma StepAwaits(l: L.Life, step: L.LifeStep, c: Ctx)
    requires L.LifeInv(l) && L.Enabled(l, step) && RetiredOrAwaited(l, c)
    ensures RetiredOrAwaited(L.Apply(l, step), c)
  {
    match step
    case Launch(s) => LaunchAwaits(l, s, c);
    case Listen(s) => ListenAwaits(l, s, c);
    case Clean(Abort(d)) => assert L.Apply(l, step).deferred == l.deferred;
    case Clean(Timer(now)) => TimerAwaits(l, now, c);
    case Clean(Handle(k)) => HandlerAwaits(l, k, c);
  }

  lemma RunStepAwaits(lives: seq<L.Life>, moves: seq<L.LifeStep>, k: nat, c: Ctx)
    requires L.LifeRun(lives, moves) && k < |moves| && RetiredOrAwaited(lives[k], c)
    ensures RetiredOrAwaited(lives[k + 1], c)
  {
    L.LifeAlwaysOk(lives, moves, k);
    assert L.LifeMoves(lives[k], moves[k], lives[k + 1]);
    StepAwaits(lives[k], moves[k], c);
  }

  /** In every run of the lifecycle, from the reset that captures it on. */
  lemma {:induction false} LifeAwaits(lives: seq<L.Life>, moves: seq<L.LifeStep>, i: nat, n: nat, c: Ctx)
    requires L.LifeRun(lives, moves) && i <= n < |lives| && RetiredOrAwaited(lives[i], c)
    ensures RetiredOrAwaited(lives[n], c)
    decreases n
  {
    if i < n {
      LifeAwaits(lives, moves, i, n - 1, c);
      RunStepAwaits(lives, moves, n - 1, c);
    }
  }

  // ---------- goals, told from the responses ----------

  predicate IsAccepted(l: L.Life, c: Ctx) {
    c in l.goals && l.goals[c].Accepted?
  }

  lemma ResponseGoals(l: L.Life, d: Ctx, accepted: bool)
    requires L.ListenEnabled(l, L.Response(d, accepted))
    ensures L.ListenNext(l, L.Response(d, accepted)).goals
            == l.goals[d := if accepted then L.Accepted else L.Rejected(d in l.contexts)]
  {
    ResponseExactly(l, d, accepted);
  }

  lemma ResponseAccepts(l: L.Life, d: Ctx, accepted: bool, c: Ctx)
    requires L.ListenEnabled(l, L.Response(d, accepted))
    ensures IsAccepted(L.ListenNext(l, L.Response(d, accepted)), c) <==> IsAccepted(l, c) || (d == c && accepted)
  {
    ResponseGoals(l, d, accepted);
  }

  lemma ListenAccepts(l: L.Life, step: L.ListenStep, c: Ctx)
    requires L.ListenEnabled(l, step)
    ensures IsAccepted(L.ListenNext(l, step), c) <==> IsAccepted(l, c) || step == L.Response(c, true)
  {
    match step
    case Observe(_, _) => assert L.ListenNext(l, step).goals == l.goals;
    case ClockReset => assert L.ListenNext(l, step).goals == l.goals;
    case Response(d, accepted) => ResponseAccepts(l, d, accepted, c);
  }

  lemma CleanAccepts(l: L.Life, step: L.CleanStep, c: Ctx)
    requires L.CleanEnabled(l, step)
    ensures IsAccepted(L.CleanNext(l, step), c) == IsAccepted(l, c)
  {
    match step
    case Abort(_) =>
    case Timer(now) => assert L.CleanNext(l, step).goals == l.goals;
    case Handle(i) => HandlerFields(l, i);
  }

  lemma LaunchAccepts(l: L.Life, step: L.LaunchStep, c: Ctx)
    requires L.StagesOk(l) && L.LaunchEnabled(l, step)
    ensures IsAccepted(L.LaunchNext(l, step), c) == IsAccepted(l, c)
  {
  }

  lemma StepAccepts(l: L.Life, step: L.LifeStep, c: Ctx)
    requires L.LifeInv(l) && L.Enabled(l, step)
    ensures IsAccepted(L.Apply(l, step), c) <==> IsAccepted(l, c) || step == L.Listen(L.Response(c, true))
  {
    match step
    case Launch(s) => LaunchAccepts(l, s, c);
    case Listen(s) => ListenAccepts(l, s, c);
    case Clean(s) => CleanAccepts(l, s, c);
  }

  lemma RunStepAccepts(lives: seq<L.Life>, moves: seq<L.LifeStep>, k: nat, c: Ctx)
    requires L.LifeRun(lives, moves) && k < |moves|
    ensures IsAccepted(lives[k + 1], c) <==> IsAccepted(lives[k], c) || moves[k] == L.Listen(L.Response(c, true))
  {
    L.LifeAlwaysOk(lives, moves, k);
    assert L.LifeMoves(lives[k], moves[k], lives[k + 1]);
    StepAccepts(lives[k], moves[k], c);
  }

  /** A response has accepted the goal of the context. */
  ghost predicate WasAccepted(moves: seq<L.LifeStep>, n: nat, c: Ctx)
    requires n <= |moves|
  {
    exists k :: 0 <= k < n && moves[k] == L.Listen(L.Response(c, true))
  }

  lemma {:induction false} AcceptedMeans(lives: seq<L.Life>, moves: seq<L.LifeStep>, n: nat, c: Ctx)
    requires L.LifeRun(lives, moves) && n < |lives|
    ensures IsAccepted(lives[n], c) <==> WasAccepted(moves, n, c)
  {
    if n > 0 {
      AcceptedMeans(lives, moves, n - 1, c);
      RunStepAccepts(lives, moves, n - 1, c);
      assert WasAccepted(moves, n, c) <==>
             WasAccepted(moves, n - 1, c) || moves[n - 1] == L.Listen(L.Response(c, true));
    }
  }

  /** In every run, whatever the order of responses, resets, handlers and timer callbacks: a context that a reset handler has
      retired has had its goal cancelled exactly once if a response accepted it, and else not at all; while it is live it
      holds the goal's handle if and only if a response accepted it, and its goal has not been cancelled. */
  lemma CancelledIfAccepted(lives: seq<L.Life>, moves: seq<L.LifeStep>, n: nat, c: Ctx)
    requires L.LifeRun(lives, moves) && n < |lives|
    ensures c in lives[n].retired && lives[n].retired[c].how == L.ByReset ==>
              lives[n].cancels[c] == (if WasAccepted(moves, n, c) then 1 else 0) && lives[n].reports[c] == 1
    ensures c in lives[n].contexts ==>
              (lives[n].contexts[c].goalHandle <==> WasAccepted(moves, n, c)) && lives[n].cancels[c] == 0
  {
    AcceptedMeans(lives, moves, n, c);
    L.LifeAlwaysOk(lives, moves, n);
    if c in lives[n].retired {
      L.RetiredSettledOnce(lives[n], c);
    }
    if c in lives[n].contexts {
      L.LiveUntouched(lives, moves, n, c);
    }
  }

  // ---------- the scheduler's steps ----------

  /** A clock jump, in any run: only a backward one delivered while the monitoring is open defers a handler, and the
      handler has exactly the live contexts with a start; if there is none, none is deferred. The time it reports is the
      time from which the clock jumped. */
  lemma JumpExactly(states: seq<Coord>, steps: seq<Step>, n: nat, before: int, now: int)
    requires IsRun(states, steps) && n < |steps| && steps[n] == World(Jump(now - before, now))
    ensures var l, l', open := states[n].life, states[n + 1].life, states[n].clock.open;
            && (if open && now < before && exists c :: LiveAndStarted(l, c) then
                  && |l'.deferred| == |l.deferred| + 1
                  && l' == l.(deferred := l.deferred + [l'.deferred[|l.deferred|]])
                  && forall c :: c in l'.deferred[|l.deferred|] <==> LiveAndStarted(l, c)
                else l' == l)
            && states[n + 1].clock.resets == states[n].clock.resets + if open && now < before then [before] else []
  {
    assert Moves(states[n], steps[n], states[n + 1]);
    ResetExactly(states[n].life);
  }

  /** A handler, in any run: what it does to each context (`StepEffects.HandlerExactly`), and that it drops the whole
      queue, each scenario with an outcome, if and only if it fails a context. */
  lemma HandlerDrops(states: seq<Coord>, steps: seq<Step>, n: nat, i: nat)
    requires IsRun(states, steps) && n < |steps| && steps[n] == World(ResetHandler(i))
    ensures i < |states[n].life.deferred|
    ensures var s, s' := states[n], states[n + 1];
            && s'.life == L.CleanNext(s.life, L.Handle(i))
            && if SomeFail(s.life, s.life.deferred[i]) then
                 && s'.pending == [] && |s'.outcomes| == |s.outcomes| + |s.pending| && s.outcomes <= s'.outcomes
                 && forall k :: 0 <= k < |s.pending| ==> s'.outcomes[|s.outcomes| + k] == Dropped(s.pending[k])
               else s'.pending == s.pending && s'.outcomes == s.outcomes
  {
    assert Moves(states[n], steps[n], states[n + 1]);
    FailingIs(states[n].life, states[n].life.deferred[i]);
  }

  /** In every run of the scheduler: once a backward jump has been delivered at position `i`, while the monitoring is open,
      each context that was live and started then is, at every later position, retired, or still live and started while
      a handler that has captured it waits. So when no such handler is left, it has been retired. */
  lemma CapturedUntilRetired(states: seq<Coord>, steps: seq<Step>, i: nat, n: nat, delta: int, now: int, c: Ctx)
    requires IsRun(states, steps) && i < n < |states|
    requires steps[i] == World(Jump(delta, now)) && delta < 0 && states[i].clock.open && LiveAndStarted(states[i].life, c)
    ensures RetiredOrAwaited(states[n].life, c)
  {
    JumpExactly(states, steps, i, now - delta, now);
    var l' := states[i + 1].life;
    assert c in l'.deferred[|states[i].life.deferred|];
    var lives, moves, at := LifeProjection.Projects(states, steps, n);
    LifeAwaits(lives, moves, at[i + 1], at[n], c);
  }
}
