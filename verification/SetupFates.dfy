/** What becomes of each scenario that is taken into setup, and of each one that is requested, told from the steps of a run. */
module SetupFates {
  import opened StatusMessages
  import L = Lifecycle
  import C = ClockSync
  import opened Coordinator
  import StartConditions

  // ---------- started unless its setup fails ----------

  /** The setup of context `c` fails at this step: the monitoring is closed when the setup or the wait begins, the scene
      fails, the timeout given for the wait is refused, or the wait times out. */
  predicate FailsSetup(s: Coord, step: Step, c: Ctx) {
    match s.pc
    case Creating(_, d) => d == c && step == Task(BeginSetup) && s.life.useSim && !s.clock.open
    case SettingUp(_, d) =>
      d == c && (step == Task(SceneFails)
                 || (s.life.useSim && (step == Task(SceneReady(false)) || (step == Task(SceneReady(true)) && !s.clock.open))))
    case Waiting(_, d, f, _) => d == c && step == Task(Resume) && f < |s.clock.futures| && s.clock.futures[f].TimedOut?
    case _ => false
  }

  function FailedBy(s: Coord, step: Step): set<Ctx> {
    set c | c in Preparing(s.pc) && FailsSetup(s, step, c)
  }

  /** The contexts whose setup has failed in the first `n` steps. */
  function FailedSetups(states: seq<Coord>, steps: seq<Step>, n: nat): set<Ctx>
    requires n <= |steps| < |states|
  {
    if n == 0 then {} else FailedSetups(states, steps, n - 1) + FailedBy(states[n - 1], steps[n - 1])
  }

  lemma {:induction false} FailedMeans(states: seq<Coord>, steps: seq<Step>, n: nat, c: Ctx)
    requires n <= |steps| < |states|
    ensures c in FailedSetups(states, steps, n) <==> exists k :: 0 <= k < n && FailsSetup(states[k], steps[k], c)
  {
    if n > 0 {
      FailedMeans(states, steps, n - 1, c);
    }
  }

  ghost predicate HasStarted(os: seq<Outcome>, c: Ctx) {
    exists i :: 0 <= i < |os| && os[i].Started? && os[i].ctx == c
  }

  /** The task knows whether the setup it is at has failed. */
  ghost predicate PcKnows(pc: SetupPc, failed: set<Ctx>) {
    if pc.Failed? then pc.ctx in failed else Preparing(pc) !! failed
  }

  /** A context is in setup, has failed its setup or has been started, and only one of these. */
  ghost predicate Decided(os: seq<Outcome>, preparing: set<Ctx>, failed: set<Ctx>, created: set<Ctx>) {
    && preparing <= created && failed <= created
    && (forall c: Ctx :: HasStarted(os, c) ==> c in created && c !in preparing && c !in failed)
    && forall c :: c in created && c !in preparing && c !in failed ==> HasStarted(os, c)
  }

  ghost predicate Knows(s: Coord, failed: set<Ctx>) {
    PcKnows(s.pc, failed) && Decided(s.outcomes, Preparing(s.pc), failed, s.life.created)
  }

  lemma StartedSnoc(os: seq<Outcome>, more: seq<Outcome>, c: Ctx)
    ensures HasStarted(os + more, c) <==> HasStarted(os, c) || HasStarted(more, c)
  {
    if i :| 0 <= i < |os| && os[i].Started? && os[i].ctx == c {
      assert (os + more)[i].ctx == c;
    }
    if i :| 0 <= i < |more| && more[i].Started? && more[i].ctx == c {
      assert (os + more)[|os| + i].ctx == c;
    }
  }

  /** The task goes on to fail exactly at the steps that fail the setup. */
  lemma TaskFails(s: Coord, step: SetupStep)
    requires SetupEnabled(s, step) && C.ClockInv(s.clock) && ClockFollows(s.life.useSim, s.pc, s.clock)
    ensures var pc' := SetupNext(s, step).pc;
            pc'.Failed? && !s.pc.Failed? <==> FailedBy(s, Task(step)) != {}
  {
    var pc' := SetupNext(s, step).pc;
    if s.pc.Creating? || s.pc.SettingUp? || s.pc.Waiting? {
      assert Preparing(s.pc) == {s.pc.ctx};
      assert FailedBy(s, Task(step)) == if FailsSetup(s, Task(step), s.pc.ctx) then {s.pc.ctx} else {};
    } else {
      assert FailedBy(s, Task(step)) == {};
    }
  }

  /** What the task does to the context in setup. */
  lemma TaskPreparing(s: Coord, step: SetupStep)
    requires SetupEnabled(s, step)
    ensures Preparing(SetupNext(s, step).pc)
            == if step.CreateContext? then {step.ctx}
               else if step.FailCleanup? || step.InsertContext? then {}
               else Preparing(s.pc)
    ensures step.FailCleanup? ==> s.pc.Failed?
    ensures step.CreateContext? ==> Preparing(s.pc) == {}
  {
  }

  lemma TaskOutcome(s: Coord, step: SetupStep)
    requires SetupEnabled(s, step)
    ensures SetupNext(s, step).outcomes
            == s.outcomes + if step.InsertContext? then [Started(s.pc.variation, s.pc.ctx, s.pc.wait)]
                            else if step.FailCleanup? then [SetupFailed(s.pc.variation)] else []
  {
  }

  lemma StartedOne(v: Variation, c: Ctx, wait: Option<Wait>, d: Ctx)
    ensures HasStarted([Started(v, c, wait)], d) <==> c == d
    ensures !HasStarted([SetupFailed(v)], d) && !HasStarted([], d)
  {
    assert [Started(v, c, wait)][0].ctx == c;
  }

  /** A context may be taken from setup once it has failed or is started. */
  lemma DecidedMore(os: seq<Outcome>, preparing: set<Ctx>, failed: set<Ctx>, created: set<Ctx>,
                    more: seq<Outcome>, preparing': set<Ctx>, failed': set<Ctx>, created': set<Ctx>)
    requires Decided(os, preparing, failed, created)
    requires created <= created' && failed <= failed' && preparing' <= created' && failed' <= created'
    requires forall c :: c in created' && c !in created ==> c in preparing'
    requires forall c :: c in preparing' && c !in preparing ==> c !in created
    requires forall c :: c in failed' && c !in failed ==> c in preparing
    requires forall c :: c in preparing && c !in preparing' ==> c in failed' || HasStarted(more, c)
    requires forall c: Ctx :: HasStarted(more, c) ==> c in preparing && c !in preparing' && c !in failed'
    ensures Decided(os + more, preparing', failed', created')
  {
    forall c: Ctx ensures HasStarted(os + more, c) <==> HasStarted(os, c) || HasStarted(more, c) {
      StartedSnoc(os, more, c);
    }
  }

  lemma TaskDecides(s: Coord, step: SetupStep, failed: set<Ctx>)
    requires Knows(s, failed) && SetupEnabled(s, step)
    ensures var s' := SetupNext(s, step);
            Decided(s'.outcomes, Preparing(s'.pc), failed + FailedBy(s, Task(step)), s'.life.created)
  {
    var s', fails := SetupNext(s, step), FailedBy(s, Task(step));
    TaskPreparing(s, step);
    TaskOutcome(s, step);
    StartConditions.TaskCreated(s, step);
    var more := if step.InsertContext? then [Started(s.pc.variation, s.pc.ctx, s.pc.wait)]
                else if step.FailCleanup? then [SetupFailed(s.pc.variation)] else [];
    forall c: Ctx ensures HasStarted(more, c) <==> step.InsertContext? && c == s.pc.ctx {
      if step.InsertContext? {
        StartedOne(s.pc.variation, s.pc.ctx, s.pc.wait, c);
      } else {
        StartedOne(if step.FailCleanup? then s.pc.variation else 0, c, None, c);
      }
    }
    assert step.InsertContext? || step.FailCleanup? ==> fails == {};
    DecidedMore(s.outcomes, Preparing(s.pc), failed, s.life.created,
                more, Preparing(s'.pc), failed + fails, s'.life.created);
  }

  lemma TaskKnows(s: Coord, step: SetupStep, failed: set<Ctx>)
    requires Knows(s, failed) && SetupEnabled(s, step)
    requires C.ClockInv(s.clock) && ClockFollows(s.life.useSim, s.pc, s.clock)
    ensures PcKnows(SetupNext(s, step).pc, failed + FailedBy(s, Task(step)))
  {
    TaskFails(s, step);
    TaskPreparing(s, step);
    StartConditions.TaskCreated(s, step);
  }

  lemma DroppedNotStarted(vs: seq<Variation>, c: Ctx)
    ensures !HasStarted(Drops(vs), c)
  {
  }

  /** Requests and the world decide nothing. */
  lemma OthersDecide(s: Coord, step: Step)
    requires Enabled(s, step) && !step.Task? && (s.setupActive <==> !s.pc.Idle?)
    ensures var s' := Apply(s, step);
            && s'.life.created == s.life.created && Preparing(s'.pc) == Preparing(s.pc)
            && FailedBy(s, step) == {} && s'.pc.Failed? == s.pc.Failed?
            && (s'.outcomes == s.outcomes || s'.outcomes == s.outcomes + Drops(s.pending))
  {
    if step.World? {
      StartConditions.WorldCreated(s, step.world);
    }
  }

  lemma StepKnows(s: Coord, step: Step, failed: set<Ctx>)
    requires Inv(s) && Knows(s, failed) && Enabled(s, step)
    ensures Knows(Apply(s, step), failed + FailedBy(s, step))
  {
    if step.Task? {
      TaskKnows(s, step.setup, failed);
      TaskDecides(s, step.setup, failed);
    } else {
      var s' := Apply(s, step);
      OthersDecide(s, step);
      assert failed + FailedBy(s, step) == failed;
      forall c: Ctx ensures HasStarted(s'.outcomes, c) == HasStarted(s.outcomes, c) {
        StartedSnoc(s.outcomes, Drops(s.pending), c);
        DroppedNotStarted(s.pending, c);
      }
    }
  }

  lemma InitiallyKnows(useSim: bool)
    ensures Knows(Initial(useSim), {})
  {
  }

  lemma RunStepKnows(states: seq<Coord>, steps: seq<Step>, k: nat, failed: set<Ctx>)
    requires IsRun(states, steps) && k < |steps| && Knows(states[k], failed)
    ensures Knows(states[k + 1], failed + FailedBy(states[k], steps[k]))
  {
    AlwaysOk(states, steps, k);
    assert Moves(states[k], steps[k], states[k + 1]);
    StepKnows(states[k], steps[k], failed);
  }

  lemma {:induction false} RunKnows(states: seq<Coord>, steps: seq<Step>, n: nat)
    requires IsRun(states, steps) && n < |states|
    ensures Knows(states[n], FailedSetups(states, steps, n))
  {
    if n == 0 {
      InitiallyKnows(states[0].life.useSim);
    } else {
      RunKnows(states, steps, n - 1);
      RunStepKnows(states, steps, n - 1, FailedSetups(states, steps, n - 1));
    }
  }

  /** In every run: a context that was created and is no longer in setup has been started if and only if no step failed its
      setup. */
  lemma StartedUnlessFailed(states: seq<Coord>, steps: seq<Step>, n: nat, c: Ctx)
    requires IsRun(states, steps) && n < |states| && c in states[n].life.created && c !in Preparing(states[n].pc)
    ensures HasStarted(states[n].outcomes, c) <==> !exists k :: 0 <= k < n && FailsSetup(states[k], steps[k], c)
  {
    RunKnows(states, steps, n);
    FailedMeans(states, steps, n, c);
  }

  /** After a failed setup the task goes on with the next pending scenario; after a start it does not. */
  lemma GoesOnAfterFailure(s: Coord)
    requires Inv(s) && s.pc.Cleaning? && s.pending != []
    ensures Enabled(s, Task(ClearAfterFailure))
    ensures var s' := Apply(s, Task(ClearAfterFailure));
            Enabled(s', Task(Pop)) && Apply(s', Task(Pop)).pc == Popped(s.pending[0])
  {
    NoKeysNoMap(s.life.contexts, map[]);
  }

  // ---------- nothing that is requested is lost ----------

  /** A start request is accepted at this step: nothing is in setup, pending or active. */
  predicate Accepts(s: Coord, step: Step) {
    step.Ask? && step.request.Request? && !s.setupActive && s.pending == [] && s.life.contexts == map[]
  }

  /** The variations of the requests accepted in the first `n` steps. */
  function Accepted(states: seq<Coord>, steps: seq<Step>, n: nat): multiset<Variation>
    requires n <= |steps| < |states|
  {
    if n == 0 then multiset{}
    else
      Accepted(states, steps, n - 1)
      + if Accepts(states[n - 1], steps[n - 1]) then multiset(steps[n - 1].request.variations) else multiset{}
  }

  /** What the accepted requests still have to append. */
  function ToAppend(starters: seq<seq<Variation>>): multiset<Variation> {
    if starters == [] then multiset{}
    else ToAppend(starters[..|starters| - 1]) + multiset(starters[|starters| - 1])
  }

  lemma {:induction false} ToAppendConcat(a: seq<seq<Variation>>, b: seq<seq<Variation>>)
    ensures ToAppend(a + b) == ToAppend(a) + ToAppend(b)
    decreases |b|
  {
    if b == [] {
      assert a + b == a;
    } else {
      assert (a + b)[..|a + b| - 1] == a + b[..|b| - 1];
      ToAppendConcat(a, b[..|b| - 1]);
    }
  }

  lemma ToAppendAt(starters: seq<seq<Variation>>, i: nat)
    requires i < |starters|
    ensures ToAppend(starters) == ToAppend(starters[..i]) + multiset(starters[i]) + ToAppend(starters[i + 1..])
  {
    assert starters == starters[..i] + [starters[i]] + starters[i + 1..];
    ToAppendConcat(starters[..i] + [starters[i]], starters[i + 1..]);
    ToAppendConcat(starters[..i], [starters[i]]);
    assert [starters[i]][..0] == [];
    assert ToAppend([starters[i]]) == multiset(starters[i]);
  }

  /** One request has appended its first variation. */
  lemma ToAppendLess(starters: seq<seq<Variation>>, i: nat)
    requires i < |starters| && starters[i] != []
    ensures ToAppend(starters[i := starters[i][1..]]) + multiset{starters[i][0]} == ToAppend(starters)
  {
    var vs := starters[i];
    var rest := starters[i := vs[1..]];
    ToAppendAt(starters, i);
    ToAppendAt(rest, i);
    assert rest[..i] == starters[..i] && rest[i + 1..] == starters[i + 1..];
    assert vs == [vs[0]] + vs[1..];
  }

  lemma AppendMoves(s: Coord, i: nat)
    requires RequestEnabled(s, Append(i))
    ensures var s' := RequestNext(s, Append(i));
            multiset(s'.enqueued) + ToAppend(s'.starters) == multiset(s.enqueued) + ToAppend(s.starters)
  {
    ToAppendLess(s.starters, i);
  }

  lemma FinishMoves(s: Coord, i: nat)
    requires RequestEnabled(s, Finished(i))
    ensures var s' := RequestNext(s, Finished(i));
            multiset(s'.enqueued) + ToAppend(s'.starters) == multiset(s.enqueued) + ToAppend(s.starters)
  {
    ToAppendAt(s.starters, i);
    ToAppendConcat(s.starters[..i], s.starters[i + 1..]);
  }

  lemma RequestMoves(s: Coord, step: RequestStep)
    requires RequestEnabled(s, step)
    ensures var s' := RequestNext(s, step);
            multiset(s'.enqueued) + ToAppend(s'.starters)
            == multiset(s.enqueued) + ToAppend(s.starters)
               + if Accepts(s, Ask(step)) then multiset(step.variations) else multiset{}
    ensures step.Request? && !Accepts(s, Ask(step)) ==> RequestNext(s, step) == s
  {
    match step
    case Request(vs) => assert (s.starters + [vs])[..|s.starters|] == s.starters;
    case Append(i) => AppendMoves(s, i);
    case Finished(i) => FinishMoves(s, i);
    case Schedule =>
  }

  lemma OthersMoveNothing(s: Coord, step: Step)
    requires Enabled(s, step) && !step.Ask?
    ensures Apply(s, step).enqueued == s.enqueued && Apply(s, step).starters == s.starters
  {
  }

  /** In every run: what has been enqueued and what the requests under way still have to append are together exactly the
      variations of the requests accepted so far, and a request is accepted only while nothing is in setup, pending or
      active. */
  lemma {:induction false} RequestsConserved(states: seq<Coord>, steps: seq<Step>, n: nat)
    requires IsRun(states, steps) && n < |states|
    ensures multiset(states[n].enqueued) + ToAppend(states[n].starters) == Accepted(states, steps, n)
  {
    if n > 0 {
      RequestsConserved(states, steps, n - 1);
      assert Moves(states[n - 1], steps[n - 1], states[n]);
      if steps[n - 1].Ask? {
        RequestMoves(states[n - 1], steps[n - 1].request);
      } else {
        OthersMoveNothing(states[n - 1], steps[n - 1]);
      }
    }
  }
}
