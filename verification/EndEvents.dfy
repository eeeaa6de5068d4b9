/** How many end events a context causes, told from the steps of a run. */
module EndEvents {
  import opened StatusMessages
  import opened Lifecycle
  import opened StepEffects

  /** A rejection arrives while the context is live. */
  predicate RejectsLive(l: Life, step: LifeStep, c: Ctx) {
    step == Listen(Response(c, false)) && c in l.contexts
  }

  /** The timer finds the context's pending end due and not yet announced. */
  predicate AnnouncesEnd(l: Life, step: LifeStep, c: Ctx) {
    && step.Clean? && step.clean.Timer? && c in l.contexts
    && !FromTheFuture(l.useSim, step.clean.now, l.contexts[c].mgr) && EndIsDue(step.clean.now, l.contexts[c])
  }

  predicate WasRejected(l: Life, c: Ctx) {
    c in l.goals && l.goals[c] == Rejected(true)
  }

  /** The timer has announced the end of the context, which may be gone by now. */
  predicate WasAnnounced(l: Life, c: Ctx) {
    (c in l.contexts && l.contexts[c].endSent) || (c in l.retired && l.retired[c].endSent)
  }

  // ---------- one step ----------

  lemma LaunchSays(l: Life, step: LaunchStep, c: Ctx)
    requires StagesOk(l) && LaunchEnabled(l, step)
    ensures WasRejected(LaunchNext(l, step), c) == WasRejected(l, c)
    ensures WasAnnounced(LaunchNext(l, step), c) == WasAnnounced(l, c)
  {
    if step.Insert? {
      assert LaunchOk(l.launching[step.ctx], step.ctx, l.contexts, l.retired.Keys);
    }
  }

  lemma RejectSays(l: Life, d: Ctx, c: Ctx)
    ensures WasRejected(RejectLive(l, d), c) == (WasRejected(l, c) || d == c)
    ensures WasAnnounced(RejectLive(l, d), c) == WasAnnounced(l, c)
  {
  }

  lemma OtherResponseSays(l: Life, d: Ctx, c: Ctx)
    requires d in l.goals && l.goals[d].Sent?
    ensures WasRejected(RejectLate(l, d), c) == WasRejected(AcceptLate(l, d), c) == WasRejected(l, c)
    ensures WasAnnounced(RejectLate(l, d), c) == WasAnnounced(AcceptLate(l, d), c) == WasAnnounced(l, c)
    ensures d in l.contexts ==>
              WasRejected(AcceptLive(l, d), c) == WasRejected(l, c) && WasAnnounced(AcceptLive(l, d), c) == WasAnnounced(l, c)
  {
  }

  lemma ResponseSays(l: Life, d: Ctx, accepted: bool, c: Ctx)
    requires ListenEnabled(l, Response(d, accepted))
    ensures WasRejected(Respond(l, d, accepted), c) == (WasRejected(l, c) || (d == c && !accepted && d in l.contexts))
    ensures WasAnnounced(Respond(l, d, accepted), c) == WasAnnounced(l, c)
  {
    if d in l.contexts && !accepted {
      RejectSays(l, d, c);
    } else {
      OtherResponseSays(l, d, c);
    }
  }

  lemma ObserveSays(l: Life, d: Ctx, mgr: Manager, c: Ctx)
    requires d in l.contexts
    ensures var l' := l.(contexts := l.contexts[d := l.contexts[d].(mgr := mgr)]);
            WasRejected(l', c) == WasRejected(l, c) && WasAnnounced(l', c) == WasAnnounced(l, c)
  {
  }

  lemma ListenSays(l: Life, step: ListenStep, c: Ctx)
    requires ListenEnabled(l, step)
    ensures WasRejected(ListenNext(l, step), c) == (WasRejected(l, c) || RejectsLive(l, Listen(step), c))
    ensures WasAnnounced(ListenNext(l, step), c) == WasAnnounced(l, c)
  {
    match step
    case Observe(d, mgr) => ObserveSays(l, d, mgr, c);
    case ClockReset =>
    case Response(d, accepted) => ResponseSays(l, d, accepted, c);
  }

  lemma RetireSays(l: Life, rs: set<Ctx>, how: How, c: Ctx)
    requires StagesOk(l) && rs <= l.contexts.Keys
    ensures WasRejected(Retire(l, rs, how), c) == WasRejected(l, c)
    ensures WasAnnounced(Retire(l, rs, how), c) == WasAnnounced(l, c)
  {
  }

  lemma SendSays(l: Life, now: int, c: Ctx)
    ensures WasRejected(SendEnds(l, now), c) == WasRejected(l, c)
    ensures WasAnnounced(SendEnds(l, now), c) == (WasAnnounced(l, c) || c in EndingOf(l.useSim, now, l.contexts))
  {
  }

  lemma CleanSays(l: Life, step: CleanStep, c: Ctx)
    requires LifeInv(l) && CleanEnabled(l, step)
    ensures WasRejected(CleanNext(l, step), c) == WasRejected(l, c)
    ensures WasAnnounced(CleanNext(l, step), c) == (WasAnnounced(l, c) || AnnouncesEnd(l, Clean(step), c))
  {
    match step
    case Abort(_) =>
    case Timer(now) =>
      SendEndsKeeps(l, now);
      EndingIs(l.useSim, now, l.contexts, c);
      SendSays(l, now, c);
      RetireSays(SendEnds(l, now), DueSet(l, now), ByTimer, c);
    case Handle(i) => RetireSays(l, Failing(l, l.deferred[i]), ByReset, c);
  }

  lemma StepSays(l: Life, step: LifeStep, c: Ctx)
    requires LifeInv(l) && Enabled(l, step)
    ensures WasRejected(Apply(l, step), c) == (WasRejected(l, c) || RejectsLive(l, step, c))
    ensures WasAnnounced(Apply(l, step), c) == (WasAnnounced(l, c) || AnnouncesEnd(l, step, c))
  {
    match step
    case Launch(s) => LaunchSays(l, s, c);
    case Listen(s) => ListenSays(l, s, c);
    case Clean(s) => CleanSays(l, s, c);
  }

  // ---------- whole runs ----------

  ghost predicate RejectedLive(states: seq<Life>, steps: seq<LifeStep>, n: nat, c: Ctx)
    requires n <= |steps| && n <= |states|
  {
    exists k :: 0 <= k < n && RejectsLive(states[k], steps[k], c)
  }

  ghost predicate Announced(states: seq<Life>, steps: seq<LifeStep>, n: nat, c: Ctx)
    requires n <= |steps| && n <= |states|
  {
    exists k :: 0 <= k < n && AnnouncesEnd(states[k], steps[k], c)
  }

  lemma RunStepSays(states: seq<Life>, steps: seq<LifeStep>, k: nat, c: Ctx)
    requires LifeRun(states, steps) && k < |steps|
    ensures WasRejected(states[k + 1], c) == (WasRejected(states[k], c) || RejectsLive(states[k], steps[k], c))
    ensures WasAnnounced(states[k + 1], c) == (WasAnnounced(states[k], c) || AnnouncesEnd(states[k], steps[k], c))
  {
    LifeAlwaysOk(states, steps, k);
    assert LifeMoves(states[k], steps[k], states[k + 1]);
    StepSays(states[k], steps[k], c);
  }

  lemma {:induction false} RunSays(states: seq<Life>, steps: seq<LifeStep>, n: nat, c: Ctx)
    requires LifeRun(states, steps) && n < |states|
    ensures WasRejected(states[n], c) <==> RejectedLive(states, steps, n, c)
    ensures WasAnnounced(states[n], c) <==> Announced(states, steps, n, c)
  {
    if n > 0 {
      RunSays(states, steps, n - 1, c);
      RunStepSays(states, steps, n - 1, c);
    }
  }

  /** In every run a context causes one end event if a rejection found it live, and one more if the timer found its
      pending end due; so it causes at most one if and only if not both happened. */
  lemma EndEventsExactly(states: seq<Life>, steps: seq<LifeStep>, n: nat, c: Ctx)
    requires LifeRun(states, steps) && n < |states|
    ensures var rejected, announced := RejectedLive(states, steps, n, c), Announced(states, steps, n, c);
            && states[n].endEvents[c] == (if rejected then 1 else 0) + (if announced then 1 else 0)
            && (states[n].endEvents[c] <= 1 <==> !(rejected && announced))
  {
    LifeAlwaysOk(states, steps, n);
    RunSays(states, steps, n, c);
    assert states[n].endEvents[c] == EndsDue(states[n], c);
    assert c in states[n].contexts ==> c !in states[n].retired;
  }

  // ---------- an input with two end events ----------

  const ENDING := Manager(Some(0), None, [], Some(0))

  lemma LaunchedRun() returns (states: seq<Life>, steps: seq<LifeStep>)
    ensures LifeRun(states, steps)
    ensures var l := states[|steps|];
            && l.contexts == map[0 := NEW_CONTEXT] && l.goals == map[0 := Sent] && l.launching == map[]
            && l.endEvents == multiset{} && l.retired == map[] && !l.useSim
  {
    var l0 := Fresh(false);
    var l1 := Apply(l0, Launch(Create(0)));
    var l2 := Apply(l1, Launch(Insert(0)));
    var l3 := Apply(l2, Launch(Announce(0)));
    steps := [Launch(Create(0)), Launch(Insert(0)), Launch(Announce(0)), Launch(Send(0))];
    states := [l0, l1, l2, l3, Apply(l3, Launch(Send(0)))];
  }

  lemma RunOn(states: seq<Life>, steps: seq<LifeStep>, step: LifeStep) returns (states': seq<Life>)
    requires LifeRun(states, steps) && Enabled(states[|steps|], step)
    ensures LifeRun(states', steps + [step]) && states'[|steps| + 1] == Apply(states[|steps|], step)
  {
    states' := states + [Apply(states[|steps|], step)];
    forall i | 0 <= i < |steps| + 1 ensures LifeMoves(states'[i], (steps + [step])[i], states'[i + 1]) {
      if i < |steps| {
        assert LifeMoves(states[i], steps[i], states[i + 1]);
      }
    }
  }

  /** The pending end is announced and then the goal is rejected. */
  lemma AnnouncedThenRejected(l: Life)
    requires l.contexts == map[0 := NEW_CONTEXT] && l.goals == map[0 := Sent] && l.launching == map[]
    requires l.endEvents == multiset{} && l.retired == map[] && !l.useSim
    ensures Enabled(l, Listen(Observe(0, ENDING)))
    ensures var l1 := Apply(l, Listen(Observe(0, ENDING)));
            && Enabled(l1, Clean(Timer(0)))
            && var l2 := Apply(l1, Clean(Timer(0)));
               && Enabled(l2, Listen(Response(0, false)))
               && Apply(l2, Listen(Response(0, false))).endEvents[0] == 2
  {
    var l1 := Apply(l, Listen(Observe(0, ENDING)));
    assert 0 in EndingOf(l1.useSim, 0, l1.contexts) && !Due(l1.useSim, 0, l1.contexts[0].mgr);
  }

  lemma TwoEndEvents() returns (states: seq<Life>, steps: seq<LifeStep>)
    ensures LifeRun(states, steps) && states[|steps|].endEvents[0] == 2
  {
    states, steps := LaunchedRun();
    AnnouncedThenRejected(states[|steps|]);
    states := RunOn(states, steps, Listen(Observe(0, ENDING)));
    steps := steps + [Listen(Observe(0, ENDING))];
    states := RunOn(states, steps, Clean(Timer(0)));
    steps := steps + [Clean(Timer(0))];
    states := RunOn(states, steps, Listen(Response(0, false)));
    steps := steps + [Listen(Response(0, false))];
  }
}
