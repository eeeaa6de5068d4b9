/** Scenario contexts from creation to retirement, in any interleaving of launches, observations, the status timer,
    clock resets with their deferred handlers, and goal responses. Any number of contexts may be live at once. */
module Lifecycle {
  import opened StatusMessages

  /** Fresh identifiers stand for random UUIDs. */
  type Ctx = int

  type Uri = string

  type Topic = string

  /** The observation manager as far as the coordinator looks at it; at `deadline` a pending end is due. */
  datatype Manager = Manager(start: Option<int>, end: Option<int>, policyEnds: seq<int>, deadline: Option<int>)

  const NEW_MANAGER := Manager(None, None, [], None)

  datatype Context = Context(mgr: Manager, goalHandle: bool, endSent: bool)

  /** Neither a start nor an end, nor a pending one. */
  predicate Unstarted(m: Manager) {
    m.start == None && m.end == None && m.deadline == None
  }

  const NEW_CONTEXT := Context(NEW_MANAGER, false, false)

  /** A launch cut at the points where others may run: topics are being registered; the context is inserted and its
      polling handles are being started; the start event is out and the goal is not. */
  datatype LaunchPc = Registering | Activating | Announced

  /** A rejected goal is remembered with whether its context was live when the rejection arrived. */
  datatype Goal = Sent | Rejected(live: bool) | Accepted

  datatype How = ByTimer | ByReset

  datatype Retirement = Retirement(how: How, hadHandle: bool, endSent: bool)

  type Registry = map<Topic, map<Ctx, set<Uri>>>

  type Handles = map<(Ctx, Uri), int>

  datatype Life = Life(
    useSim: bool,
    contexts: map<Ctx, Context>,
    policyTopics: Registry,
    observationTopics: Registry,
    simHandles: Handles,
    tfHandles: Handles,
    started: nat,              // polling handles started so far
    cancelled: set<int>,       // polling handles cancelled so far
    created: set<Ctx>,
    launching: map<Ctx, LaunchPc>,
    goals: map<Ctx, Goal>,
    cancels: multiset<Ctx>,    // goal cancellations requested
    reports: multiset<Ctx>,    // failures reported by reset handlers
    endEvents: multiset<Ctx>,  // end events published
    rejections: multiset<Ctx>, // failed results recorded for rejected goals
    retired: map<Ctx, Retirement>,
    deferred: seq<set<Ctx>>)   // captured contexts of the reset handlers still to run

  function Fresh(useSim: bool): Life {
    Life(useSim, map[], map[], map[], map[], map[], 0, {}, {}, map[], map[],
         multiset{}, multiset{}, multiset{}, multiset{}, map[], [])
  }

  // ---------- what the callbacks decide ----------

  lemma AnElement<T>(xs: set<T>) returns (x: T)
    requires xs != {}
    ensures x in xs
  {
    x :| x in xs;
  }

  function MaxOf(xs: seq<int>): (m: int)
    requires xs != []
    ensures m in xs && forall x :: x in xs ==> x <= m
  {
    var n := |xs| - 1;
    assert xs == xs[..n] + [xs[n]];
    if n == 0 then xs[0]
    else var m := MaxOf(xs[..n]); if xs[n] > m then xs[n] else m
  }

  /** Under simulated time a context from before a reset is left to the reset handler. */
  predicate Skipped(useSim: bool, now: int, m: Manager) {
    useSim && m.start.Some? && now < m.start.value
  }

  /** A context is removed by the timer once its end, or else the latest end of its policies, has passed. */
  predicate Due(useSim: bool, now: int, m: Manager) {
    && !Skipped(useSim, now, m)
    && m.end.Some?
    && now >= if m.policyEnds == [] then m.end.value else MaxOf(m.policyEnds)
  }

  function DueOf(useSim: bool, now: int, contexts: map<Ctx, Context>): set<Ctx> {
    set c | c in contexts && Due(useSim, now, contexts[c].mgr)
  }

  function DueSet(l: Life, now: int): set<Ctx> {
    DueOf(l.useSim, now, l.contexts)
  }

  /** The contexts whose pending end is due and whose end event the timer has not sent. */
  function EndingOf(useSim: bool, now: int, contexts: map<Ctx, Context>): set<Ctx> {
    set c | c in contexts && !Skipped(useSim, now, contexts[c].mgr) && !contexts[c].endSent
            && contexts[c].mgr.deadline.Some? && now >= contexts[c].mgr.deadline.value
  }

  function MarkEnded(contexts: map<Ctx, Context>, es: set<Ctx>): map<Ctx, Context> {
    map c | c in contexts :: if c in es then contexts[c].(endSent := true) else contexts[c]
  }

  /** The timer sends the end events that are due. */
  function SendEnds(l: Life, now: int): Life {
    var es := EndingOf(l.useSim, now, l.contexts);
    l.(contexts := MarkEnded(l.contexts, es), endEvents := l.endEvents + multiset(es))
  }

  function StartedSet(contexts: map<Ctx, Context>): set<Ctx> {
    set c | c in contexts && contexts[c].mgr.start.Some?
  }

  function Holding(contexts: map<Ctx, Context>, rs: set<Ctx>): set<Ctx> {
    set c | c in rs && c in contexts && contexts[c].goalHandle
  }

  // ---------- registries ----------

  function Entry(reg: Registry, topic: Topic): map<Ctx, set<Uri>> {
    if topic in reg then reg[topic] else map[]
  }

  function RegisterIn(reg: Registry, topic: Topic, ctx: Ctx, uri: Uri): Registry {
    var e := Entry(reg, topic);
    reg[topic := e[ctx := (if ctx in e then e[ctx] else {}) + {uri}]]
  }

  function RegWithout(reg: Registry, rs: set<Ctx>): Registry {
    map t | t in reg :: reg[t] - rs
  }

  function HandlesWithout(hs: Handles, rs: set<Ctx>): Handles {
    map k | k in hs && k.0 !in rs :: hs[k]
  }

  function HandlesOf(hs: Handles, rs: set<Ctx>): set<int> {
    set k | k in hs && k.0 in rs :: hs[k]
  }

  /** The tables that retiring a context touches, and the polling handles cancelled so far. */
  datatype Tables = Tables(
    contexts: map<Ctx, Context>,
    policyTopics: Registry,
    observationTopics: Registry,
    simHandles: Handles,
    tfHandles: Handles,
    cancelled: set<int>)

  function TablesOf(l: Life): Tables {
    Tables(l.contexts, l.policyTopics, l.observationTopics, l.simHandles, l.tfHandles, l.cancelled)
  }

  /** Remove the registrations and cancel the polling handles of the contexts. */
  function Unlisted(t: Tables, rs: set<Ctx>): Tables {
    Tables(t.contexts, RegWithout(t.policyTopics, rs), RegWithout(t.observationTopics, rs),
           HandlesWithout(t.simHandles, rs), HandlesWithout(t.tfHandles, rs),
           t.cancelled + HandlesOf(t.simHandles, rs) + HandlesOf(t.tfHandles, rs))
  }

  function RetiredTables(t: Tables, rs: set<Ctx>): Tables {
    Unlisted(t, rs).(contexts := t.contexts - rs)
  }

  function WithTables(l: Life, t: Tables): Life {
    l.(contexts := t.contexts, policyTopics := t.policyTopics, observationTopics := t.observationTopics,
       simHandles := t.simHandles, tfHandles := t.tfHandles, cancelled := t.cancelled)
  }

  function Unregister(l: Life, rs: set<Ctx>): Life {
    WithTables(l, Unlisted(TablesOf(l), rs))
  }

  function Retire(l: Life, rs: set<Ctx>, how: How): Life {
    WithTables(l, RetiredTables(TablesOf(l), rs)).(
      retired := l.retired + map c | c in rs && c in l.contexts ::
                               Retirement(how, l.contexts[c].goalHandle, l.contexts[c].endSent))
  }

  /** The contexts a reset handler fails: captured, still live, and started. */
  function FailingOf(contexts: map<Ctx, Context>, ids: set<Ctx>): set<Ctx> {
    set c | c in ids && c in contexts && contexts[c].mgr.start.Some?
  }

  function Failing(l: Life, ids: set<Ctx>): set<Ctx> {
    FailingOf(l.contexts, ids)
  }

  function HandleReset(l: Life, ids: set<Ctx>): Life {
    var rs := Failing(l, ids);
    Retire(l, rs, ByReset).(
      cancels := l.cancels + multiset(Holding(l.contexts, rs)),
      reports := l.reports + multiset(rs))
  }

  function Capture(l: Life): Life {
    var ids := StartedSet(l.contexts);
    if ids == {} then l else l.(deferred := l.deferred + [ids])
  }

  /** The live context's result is a failure and its end event is sent. */
  function RejectLive(l: Life, ctx: Ctx): Life {
    l.(goals := l.goals[ctx := Rejected(true)],
       rejections := l.rejections + multiset{ctx}, endEvents := l.endEvents + multiset{ctx})
  }

  function RejectLate(l: Life, ctx: Ctx): Life {
    l.(goals := l.goals[ctx := Rejected(false)])
  }

  function AcceptLive(l: Life, ctx: Ctx): Life
    requires ctx in l.contexts
  {
    l.(goals := l.goals[ctx := Accepted], contexts := l.contexts[ctx := l.contexts[ctx].(goalHandle := true)])
  }

  /** The context is gone: the accepted goal is cancelled at once. */
  function AcceptLate(l: Life, ctx: Ctx): Life {
    l.(goals := l.goals[ctx := Accepted], cancels := l.cancels + multiset{ctx})
  }

  function Respond(l: Life, ctx: Ctx, accepted: bool): Life {
    if ctx in l.contexts then if accepted then AcceptLive(l, ctx) else RejectLive(l, ctx)
    else if accepted then AcceptLate(l, ctx)
    else RejectLate(l, ctx)
  }

  // ---------- the machine ----------

  datatype LaunchStep =
    | Create(ctx: Ctx)
    | RegisterPolicy(ctx: Ctx, topic: Topic, uri: Uri)
    | RegisterObservation(ctx: Ctx, topic: Topic, uri: Uri)
    | Insert(ctx: Ctx)
    | ActivateSim(ctx: Ctx, uri: Uri)
    | ActivateTf(ctx: Ctx, uri: Uri)
    | Announce(ctx: Ctx)
    | Send(ctx: Ctx)

  datatype ListenStep =
    | Observe(ctx: Ctx, mgr: Manager)
    | ClockReset
    | Response(ctx: Ctx, accepted: bool)

  datatype CleanStep =
    | Abort(ctx: Ctx)
    | Timer(now: int)
    | Handle(i: nat)

  datatype LifeStep =
    | Launch(launch: LaunchStep)
    | Listen(listen: ListenStep)
    | Clean(clean: CleanStep)

  predicate InPc(l: Life, ctx: Ctx, pc: LaunchPc) {
    ctx in l.launching && l.launching[ctx] == pc
  }

  predicate LaunchEnabled(l: Life, step: LaunchStep) {
    match step
    case Create(c) => c !in l.created
    case RegisterPolicy(c, _, _) => InPc(l, c, Registering)
    case RegisterObservation(c, _, _) => InPc(l, c, Registering)
    case Insert(c) => InPc(l, c, Registering)
    case ActivateSim(c, uri) => InPc(l, c, Activating) && (c, uri) !in l.simHandles
    case ActivateTf(c, uri) => InPc(l, c, Activating) && (c, uri) !in l.tfHandles
    case Announce(c) => InPc(l, c, Activating)
    case Send(c) => InPc(l, c, Announced)
  }

  function LaunchNext(l: Life, step: LaunchStep): Life {
    match step
    case Create(c) => l.(created := l.created + {c}, launching := l.launching[c := Registering])
    case RegisterPolicy(c, topic, uri) => l.(policyTopics := RegisterIn(l.policyTopics, topic, c, uri))
    case RegisterObservation(c, topic, uri) => l.(observationTopics := RegisterIn(l.observationTopics, topic, c, uri))
    case Insert(c) =>
      l.(contexts := l.contexts[c := NEW_CONTEXT], launching := l.launching[c := Activating])
    case ActivateSim(c, uri) => l.(simHandles := l.simHandles[(c, uri) := l.started], started := l.started + 1)
    case ActivateTf(c, uri) => l.(tfHandles := l.tfHandles[(c, uri) := l.started], started := l.started + 1)
    case Announce(c) => l.(launching := l.launching[c := Announced])
    case Send(c) => l.(goals := l.goals[c := Sent], launching := l.launching - {c})
  }

  /** Anything may be observed of a live context, except that a start stays and that nothing gives the context a start or
      an end before its start event is out. */
  predicate ListenEnabled(l: Life, step: ListenStep) {
    match step
    case Observe(c, mgr) =>
      c in l.contexts && (InPc(l, c, Activating) ==> Unstarted(mgr))
      && (l.contexts[c].mgr.start.Some? ==> mgr.start.Some?)
    case ClockReset => true
    case Response(c, _) => c in l.goals && l.goals[c].Sent?
  }

  function ListenNext(l: Life, step: ListenStep): Life
    requires ListenEnabled(l, step)
  {
    match step
    case Observe(c, mgr) => l.(contexts := l.contexts[c := l.contexts[c].(mgr := mgr)])
    case ClockReset => Capture(l)
    case Response(c, accepted) => Respond(l, c, accepted)
  }

  predicate CleanEnabled(l: Life, step: CleanStep) {
    match step
    case Abort(c) => InPc(l, c, Registering)
    case Timer(_) => true
    case Handle(i) => i < |l.deferred|
  }

  function CleanNext(l: Life, step: CleanStep): Life
    requires CleanEnabled(l, step)
  {
    match step
    case Abort(c) => Unregister(l, {c}).(launching := l.launching - {c})
    case Timer(now) => Retire(SendEnds(l, now), DueSet(l, now), ByTimer)
    case Handle(i) => HandleReset(l, l.deferred[i]).(deferred := l.deferred[..i] + l.deferred[i + 1..])
  }

  predicate Enabled(l: Life, step: LifeStep) {
    match step
    case Launch(s) => LaunchEnabled(l, s)
    case Listen(s) => ListenEnabled(l, s)
    case Clean(s) => CleanEnabled(l, s)
  }

  function Apply(l: Life, step: LifeStep): Life
    requires Enabled(l, step)
  {
    match step
    case Launch(s) => LaunchNext(l, s)
    case Listen(s) => ListenNext(l, s)
    case Clean(s) => CleanNext(l, s)
  }

  // ---------- invariants ----------

  /** A launch that has not announced its context is either before or after the insertion, and nothing has been
      observed of the context. */
  ghost predicate LaunchOk(pc: LaunchPc, c: Ctx, contexts: map<Ctx, Context>, retired: set<Ctx>) {
    match pc
    case Registering => c !in contexts && c !in retired
    case Activating => c in contexts && Unstarted(contexts[c].mgr)
    case Announced => c in contexts || c in retired
  }

  ghost predicate Stages(contexts: map<Ctx, Context>, launching: map<Ctx, LaunchPc>, retired: set<Ctx>,
                         goals: set<Ctx>, created: set<Ctx>) {
    && contexts.Keys <= created && launching.Keys <= created && retired <= created
    && contexts.Keys !! retired
    && goals <= contexts.Keys + retired
    && launching.Keys !! goals
    && forall c :: c in launching ==> LaunchOk(launching[c], c, contexts, retired)
  }

  ghost predicate StagesOk(l: Life) {
    && Stages(l.contexts, l.launching, l.retired.Keys, l.goals.Keys, l.created)
    && forall i :: 0 <= i < |l.deferred| ==> l.deferred[i] <= l.contexts.Keys + l.retired.Keys
  }

  /** Every registration belongs to a live context or to one being created. */
  ghost predicate RegistryOk(reg: Registry, contexts: map<Ctx, Context>, launching: map<Ctx, LaunchPc>) {
    forall t, c :: t in reg && c in reg[t] ==> c in contexts || (c in launching && launching[c].Registering?)
  }

  ghost predicate HandlesLive(hs: Handles, contexts: map<Ctx, Context>) {
    forall k :: k in hs ==> k.0 in contexts
  }

  /** Each polling handle is filed under one key or has been cancelled, never both. */
  ghost predicate HandlesOk(sim: Handles, tf: Handles, started: nat, cancelled: set<int>) {
    && (forall k :: k in sim ==> sim[k] < started && sim[k] !in cancelled)
    && (forall k :: k in tf ==> tf[k] < started && tf[k] !in cancelled)
    && (forall k, k' :: k in sim && k' in sim && sim[k] == sim[k'] ==> k == k')
    && (forall k, k' :: k in tf && k' in tf && tf[k] == tf[k'] ==> k == k')
    && (forall k, k' :: k in sim && k' in tf ==> sim[k] != tf[k'])
    && (forall h :: 0 <= h < started ==> h in cancelled || h in sim.Values || h in tf.Values)
    && (forall h :: h in cancelled ==> h < started)
  }

  /** How many cancel requests a context's goal must have received. */
  function CancelsDue(l: Life, c: Ctx): nat {
    if c in l.goals && l.goals[c].Accepted? && c in l.retired
       && (l.retired[c].how.ByReset? || !l.retired[c].hadHandle)
    then 1 else 0
  }

  ghost predicate GoalsOk(l: Life) {
    && (forall c: Ctx :: l.cancels[c] == CancelsDue(l, c))
    && (forall c :: c in l.contexts ==> (l.contexts[c].goalHandle <==> c in l.goals && l.goals[c].Accepted?))
    && (forall c :: c in l.retired && l.retired[c].hadHandle ==> c in l.goals && l.goals[c].Accepted?)
  }

  ghost predicate ReportsOk(l: Life) {
    forall c: Ctx :: l.reports[c] == if c in l.retired && l.retired[c].how.ByReset? then 1 else 0
  }

  /** How many end events a context must have caused: one for a rejection while it was live, one from the timer. */
  function EndsDue(l: Life, c: Ctx): nat {
    (if c in l.goals && l.goals[c] == Rejected(true) then 1 else 0)
    + (if c in l.contexts && l.contexts[c].endSent then 1 else if c in l.retired && l.retired[c].endSent then 1 else 0)
  }

  ghost predicate EndsOk(l: Life) {
    && (forall c: Ctx :: l.endEvents[c] == EndsDue(l, c))
    && (forall c: Ctx :: l.rejections[c] == if c in l.goals && l.goals[c] == Rejected(true) then 1 else 0)
  }

  ghost predicate RegistriesOk(l: Life) {
    && RegistryOk(l.policyTopics, l.contexts, l.launching)
    && RegistryOk(l.observationTopics, l.contexts, l.launching)
  }

  ghost predicate PollingOk(l: Life) {
    && HandlesLive(l.simHandles, l.contexts) && HandlesLive(l.tfHandles, l.contexts)
    && HandlesOk(l.simHandles, l.tfHandles, l.started, l.cancelled)
  }

  ghost predicate LifeInv(l: Life) {
    && StagesOk(l)
    && RegistriesOk(l)
    && PollingOk(l)
    && GoalsOk(l)
    && ReportsOk(l)
    && EndsOk(l)
  }

  // ---------- launching keeps the invariants ----------

  lemma LaunchStages(l: Life, step: LaunchStep)
    requires StagesOk(l) && LaunchEnabled(l, step)
    ensures StagesOk(LaunchNext(l, step))
  {
  }

  lemma RegisterKept(reg: Registry, topic: Topic, c: Ctx, uri: Uri,
                     contexts: map<Ctx, Context>, launching: map<Ctx, LaunchPc>)
    requires RegistryOk(reg, contexts, launching) && c in launching && launching[c].Registering?
    ensures RegistryOk(RegisterIn(reg, topic, c, uri), contexts, launching)
  {
  }

  /** Registrations stay owned when live contexts stay live and creations go on or are completed. */
  lemma OwnersStay(reg: Registry, contexts: map<Ctx, Context>, launching: map<Ctx, LaunchPc>,
                   contexts': map<Ctx, Context>, launching': map<Ctx, LaunchPc>)
    requires RegistryOk(reg, contexts, launching)
    requires contexts.Keys <= contexts'.Keys
    requires forall c :: c in launching && launching[c].Registering? ==>
               c in contexts' || (c in launching' && launching'[c].Registering?)
    ensures RegistryOk(reg, contexts', launching')
  {
  }

  lemma LaunchRegistries(l: Life, step: LaunchStep)
    requires RegistriesOk(l) && LaunchEnabled(l, step)
    ensures RegistriesOk(LaunchNext(l, step))
  {
    var l' := LaunchNext(l, step);
    if step.RegisterPolicy? {
      RegisterKept(l.policyTopics, step.topic, step.ctx, step.uri, l.contexts, l.launching);
    } else if step.RegisterObservation? {
      RegisterKept(l.observationTopics, step.topic, step.ctx, step.uri, l.contexts, l.launching);
    } else {
      OwnersStay(l.policyTopics, l.contexts, l.launching, l'.contexts, l'.launching);
      OwnersStay(l.observationTopics, l.contexts, l.launching, l'.contexts, l'.launching);
    }
  }

  lemma HandleAdded(sim: Handles, tf: Handles, started: nat, cancelled: set<int>, k: (Ctx, Uri))
    requires HandlesOk(sim, tf, started, cancelled) && k !in sim
    ensures HandlesOk(sim[k := started], tf, started + 1, cancelled)
  {
    var sim' := sim[k := started];
    forall h | 0 <= h < started + 1 ensures h in cancelled || h in sim'.Values || h in tf.Values {
      if h == started {
        assert sim'[k] == h;
      } else if h in sim.Values {
        var k' :| k' in sim && sim[k'] == h;
        assert sim'[k'] == h;
      }
    }
  }

  lemma HandlesSwapped(sim: Handles, tf: Handles, started: nat, cancelled: set<int>)
    requires HandlesOk(sim, tf, started, cancelled)
    ensures HandlesOk(tf, sim, started, cancelled)
  {
  }

  lemma LaunchPolling(l: Life, step: LaunchStep)
    requires StagesOk(l) && PollingOk(l) && LaunchEnabled(l, step)
    ensures PollingOk(LaunchNext(l, step))
  {
    if step.ActivateSim? {
      assert LaunchOk(l.launching[step.ctx], step.ctx, l.contexts, l.retired.Keys);
      HandleAdded(l.simHandles, l.tfHandles, l.started, l.cancelled, (step.ctx, step.uri));
    } else if step.ActivateTf? {
      assert LaunchOk(l.launching[step.ctx], step.ctx, l.contexts, l.retired.Keys);
      HandlesSwapped(l.simHandles, l.tfHandles, l.started, l.cancelled);
      HandleAdded(l.tfHandles, l.simHandles, l.started, l.cancelled, (step.ctx, step.uri));
      HandlesSwapped(l.tfHandles[(step.ctx, step.uri) := l.started], l.simHandles, l.started + 1, l.cancelled);
    }
  }

  lemma LaunchGoals(l: Life, step: LaunchStep)
    requires StagesOk(l) && GoalsOk(l) && LaunchEnabled(l, step)
    ensures GoalsOk(LaunchNext(l, step))
  {
    var l' := LaunchNext(l, step);
    forall d: Ctx ensures l'.cancels[d] == CancelsDue(l', d) {
      assert l.cancels[d] == CancelsDue(l, d);
    }
  }

  lemma LaunchEnds(l: Life, step: LaunchStep)
    requires StagesOk(l) && EndsOk(l) && LaunchEnabled(l, step)
    ensures EndsOk(LaunchNext(l, step))
  {
    var l' := LaunchNext(l, step);
    forall d: Ctx ensures l'.endEvents[d] == EndsDue(l', d) {
      assert l.endEvents[d] == EndsDue(l, d);
    }
  }

  lemma LaunchKeeps(l: Life, step: LaunchStep)
    requires LifeInv(l) && LaunchEnabled(l, step)
    ensures LifeInv(LaunchNext(l, step))
  {
    LaunchStages(l, step);
    LaunchRegistries(l, step);
    LaunchPolling(l, step);
    LaunchGoals(l, step);
    LaunchEnds(l, step);
  }

  // ---------- listening keeps the invariants ----------

  /** Changing what is known of a live context, and the goals of known contexts, keeps stages and registrations. */
  lemma ContextChanged(l: Life, contexts': map<Ctx, Context>, goals': map<Ctx, Goal>)
    requires StagesOk(l) && RegistriesOk(l) && PollingOk(l)
    requires contexts'.Keys == l.contexts.Keys && goals'.Keys == l.goals.Keys
    requires forall c :: InPc(l, c, Activating) && c in l.contexts && Unstarted(l.contexts[c].mgr) ==>
               Unstarted(contexts'[c].mgr)
    ensures var l' := l.(contexts := contexts', goals := goals');
            StagesOk(l') && RegistriesOk(l') && PollingOk(l')
  {
    forall c | c in l.launching ensures LaunchOk(l.launching[c], c, contexts', l.retired.Keys) {
      assert LaunchOk(l.launching[c], c, l.contexts, l.retired.Keys);
    }
    OwnersStay(l.policyTopics, l.contexts, l.launching, contexts', l.launching);
    OwnersStay(l.observationTopics, l.contexts, l.launching, contexts', l.launching);
  }

  /** Ends do not change with what else is learnt about contexts and goals. */
  lemma EndsStay(l: Life, l': Life)
    requires EndsOk(l) && l'.endEvents == l.endEvents && l'.rejections == l.rejections && l'.retired == l.retired
    requires l'.contexts.Keys == l.contexts.Keys
    requires forall c :: c in l.contexts ==> l'.contexts[c].endSent == l.contexts[c].endSent
    requires forall c :: c in l.goals && l.goals[c] == Rejected(true) <==> c in l'.goals && l'.goals[c] == Rejected(true)
    ensures EndsOk(l')
  {
    forall d: Ctx ensures l'.endEvents[d] == EndsDue(l', d) {
      assert l.endEvents[d] == EndsDue(l, d);
    }
  }

  lemma RejectLiveEnds(l: Life, c: Ctx)
    requires EndsOk(l) && ListenEnabled(l, Response(c, false)) && c in l.contexts
    ensures EndsOk(RejectLive(l, c))
  {
    var l' := RejectLive(l, c);
    forall d: Ctx ensures l'.endEvents[d] == EndsDue(l', d) {
      assert l.endEvents[d] == EndsDue(l, d);
    }
  }

  lemma ObserveKeeps(l: Life, c: Ctx, mgr: Manager)
    requires LifeInv(l) && ListenEnabled(l, Observe(c, mgr))
    ensures LifeInv(l.(contexts := l.contexts[c := l.contexts[c].(mgr := mgr)]))
  {
    var contexts' := l.contexts[c := l.contexts[c].(mgr := mgr)];
    ContextChanged(l, contexts', l.goals);
    EndsStay(l, l.(contexts := contexts'));
    var l' := l.(contexts := contexts');
    forall d: Ctx ensures l'.cancels[d] == CancelsDue(l', d) {
      assert l.cancels[d] == CancelsDue(l, d);
    }
  }

  lemma CaptureKeeps(l: Life)
    requires LifeInv(l)
    ensures LifeInv(Capture(l))
  {
    var ids := StartedSet(l.contexts);
    var l' := l.(deferred := l.deferred + [ids]);
    assert ids <= l.contexts.Keys;
    EndsStay(l, l');
    forall d: Ctx ensures l'.cancels[d] == CancelsDue(l', d) {
      assert l.cancels[d] == CancelsDue(l, d);
    }
  }

  lemma RejectLiveKeeps(l: Life, c: Ctx)
    requires LifeInv(l) && ListenEnabled(l, Response(c, false)) && c in l.contexts
    ensures LifeInv(RejectLive(l, c))
  {
    ContextChanged(l, l.contexts, l.goals[c := Rejected(true)]);
    RejectLiveEnds(l, c);
    var l' := RejectLive(l, c);
    forall d: Ctx ensures l'.cancels[d] == CancelsDue(l', d) {
      assert l.cancels[d] == CancelsDue(l, d);
    }
  }

  lemma RejectLateKeeps(l: Life, c: Ctx)
    requires LifeInv(l) && ListenEnabled(l, Response(c, false)) && c !in l.contexts
    ensures LifeInv(RejectLate(l, c))
  {
    ContextChanged(l, l.contexts, l.goals[c := Rejected(false)]);
    EndsStay(l, RejectLate(l, c));
    var l' := RejectLate(l, c);
    forall d: Ctx ensures l'.cancels[d] == CancelsDue(l', d) {
      assert l.cancels[d] == CancelsDue(l, d);
    }
  }

  lemma AcceptLiveKeeps(l: Life, c: Ctx)
    requires LifeInv(l) && ListenEnabled(l, Response(c, true)) && c in l.contexts
    ensures LifeInv(AcceptLive(l, c))
  {
    ContextChanged(l, l.contexts[c := l.contexts[c].(goalHandle := true)], l.goals[c := Accepted]);
    EndsStay(l, AcceptLive(l, c));
    var l' := AcceptLive(l, c);
    forall d: Ctx ensures l'.cancels[d] == CancelsDue(l', d) {
      assert l.cancels[d] == CancelsDue(l, d);
    }
  }

  lemma AcceptLateKeeps(l: Life, c: Ctx)
    requires LifeInv(l) && ListenEnabled(l, Response(c, true)) && c !in l.contexts
    ensures LifeInv(AcceptLate(l, c))
  {
    ContextChanged(l, l.contexts, l.goals[c := Accepted]);
    EndsStay(l, AcceptLate(l, c));
    var l' := AcceptLate(l, c);
    assert l.cancels[c] == CancelsDue(l, c) == 0;
    assert c in l.retired && !l.retired[c].hadHandle;
    forall d: Ctx ensures l'.cancels[d] == CancelsDue(l', d) {
      assert l.cancels[d] == CancelsDue(l, d);
    }
  }

  lemma RespondKeeps(l: Life, c: Ctx, accepted: bool)
    requires LifeInv(l) && ListenEnabled(l, Response(c, accepted))
    ensures LifeInv(Respond(l, c, accepted))
  {
    if c in l.contexts {
      if accepted {
        AcceptLiveKeeps(l, c);
      } else {
        RejectLiveKeeps(l, c);
      }
    } else if accepted {
      AcceptLateKeeps(l, c);
    } else {
      RejectLateKeeps(l, c);
    }
  }

  /** Listening neither adds nor removes contexts or launches. */
  ghost predicate SamePopulation(l: Life, l': Life) {
    l'.contexts.Keys == l.contexts.Keys && l'.launching == l.launching && l'.created == l.created && l'.useSim == l.useSim
  }

  lemma ObserveEffect(l: Life, c: Ctx, mgr: Manager)
    requires c in l.contexts
    ensures SamePopulation(l, l.(contexts := l.contexts[c := l.contexts[c].(mgr := mgr)]))
  {
  }

  lemma CaptureEffect(l: Life)
    ensures SamePopulation(l, Capture(l))
  {
  }

  lemma AcceptLiveEffect(l: Life, c: Ctx)
    requires c in l.contexts
    ensures SamePopulation(l, AcceptLive(l, c))
  {
  }

  lemma OtherEffect(l: Life, c: Ctx)
    ensures RejectLive(l, c).contexts == AcceptLate(l, c).contexts == RejectLate(l, c).contexts == l.contexts
    ensures SamePopulation(l, RejectLive(l, c)) && SamePopulation(l, AcceptLate(l, c)) && SamePopulation(l, RejectLate(l, c))
  {
  }

  lemma RespondEffect(l: Life, c: Ctx, accepted: bool)
    ensures SamePopulation(l, Respond(l, c, accepted))
  {
    if accepted && c in l.contexts {
      AcceptLiveEffect(l, c);
    } else {
      OtherEffect(l, c);
    }
  }

  lemma ListenEffect(l: Life, step: ListenStep)
    requires ListenEnabled(l, step)
    ensures SamePopulation(l, ListenNext(l, step))
  {
    match step
    case Observe(c, mgr) => ObserveEffect(l, c, mgr);
    case ClockReset => CaptureEffect(l);
    case Response(c, accepted) => RespondEffect(l, c, accepted);
  }

  lemma ListenKeeps(l: Life, step: ListenStep)
    requires LifeInv(l) && ListenEnabled(l, step)
    ensures LifeInv(ListenNext(l, step))
  {
    match step
    case Observe(c, mgr) => ObserveKeeps(l, c, mgr);
    case ClockReset => CaptureKeeps(l);
    case Response(c, accepted) => RespondKeeps(l, c, accepted);
  }

  // ---------- cleaning up keeps the invariants ----------

  /** Only contexts that have been announced are retired. */
  ghost predicate Retirable(l: Life, rs: set<Ctx>) {
    rs <= l.contexts.Keys && forall c :: c in rs && c in l.launching ==> l.launching[c].Announced?
  }

  lemma DueRetirable(l: Life, now: int)
    requires StagesOk(l)
    ensures Retirable(l, DueSet(l, now)) && Retirable(SendEnds(l, now), DueSet(l, now))
  {
  }

  lemma FailingRetirable(l: Life, ids: set<Ctx>)
    requires StagesOk(l)
    ensures Retirable(l, Failing(l, ids))
  {
  }

  lemma RetireStages(l: Life, rs: set<Ctx>, how: How)
    requires StagesOk(l) && Retirable(l, rs)
    ensures StagesOk(Retire(l, rs, how))
  {
    var l' := Retire(l, rs, how);
    assert l'.retired.Keys == l.retired.Keys + rs;
    assert l'.contexts.Keys == l.contexts.Keys - rs;
  }

  /** Without the registrations of `rs`, those contexts may go. */
  lemma RegistryKept(reg: Registry, rs: set<Ctx>, contexts: map<Ctx, Context>, launching: map<Ctx, LaunchPc>,
                     contexts': map<Ctx, Context>, launching': map<Ctx, LaunchPc>)
    requires RegistryOk(reg, contexts, launching)
    requires forall c :: c in contexts && c !in rs ==> c in contexts'
    requires forall c :: c in launching && c !in rs ==> c in launching' && launching'[c] == launching[c]
    ensures RegistryOk(RegWithout(reg, rs), contexts', launching')
  {
  }

  lemma StaysOrGoes(hs: Handles, k: (Ctx, Uri), rs: set<Ctx>)
    requires k in hs
    ensures if k.0 in rs then hs[k] in HandlesOf(hs, rs) else hs[k] in HandlesWithout(hs, rs).Values
  {
    if k.0 !in rs {
      assert HandlesWithout(hs, rs)[k] == hs[k];
    }
  }

  lemma HandlesRemoved(sim: Handles, tf: Handles, started: nat, cancelled: set<int>, rs: set<Ctx>)
    requires HandlesOk(sim, tf, started, cancelled)
    ensures HandlesOk(HandlesWithout(sim, rs), HandlesWithout(tf, rs), started,
                      cancelled + HandlesOf(sim, rs) + HandlesOf(tf, rs))
  {
    var sim', tf' := HandlesWithout(sim, rs), HandlesWithout(tf, rs);
    var cancelled' := cancelled + HandlesOf(sim, rs) + HandlesOf(tf, rs);
    forall h | 0 <= h < started ensures h in cancelled' || h in sim'.Values || h in tf'.Values {
      if h in sim.Values {
        var k :| k in sim && sim[k] == h;
        StaysOrGoes(sim, k, rs);
      } else if h in tf.Values {
        var k :| k in tf && tf[k] == h;
        StaysOrGoes(tf, k, rs);
      }
    }
  }

  lemma LiveWithout(hs: Handles, rs: set<Ctx>, contexts: map<Ctx, Context>, contexts': map<Ctx, Context>)
    requires HandlesLive(hs, contexts) && contexts'.Keys >= contexts.Keys - rs
    ensures HandlesLive(HandlesWithout(hs, rs), contexts')
  {
    forall k | k in HandlesWithout(hs, rs) ensures k.0 in contexts' {
      assert k.0 in contexts.Keys - rs;
    }
  }

  /** What unregistering `rs` does to registries and handles. */
  lemma UnregisterKeeps(l: Life, rs: set<Ctx>, contexts': map<Ctx, Context>, launching': map<Ctx, LaunchPc>)
    requires RegistriesOk(l) && PollingOk(l)
    requires contexts'.Keys >= l.contexts.Keys - rs
    requires forall c :: c in l.launching && c !in rs ==> c in launching' && launching'[c] == l.launching[c]
    ensures var l' := Unregister(l, rs).(contexts := contexts', launching := launching');
            RegistriesOk(l') && PollingOk(l')
  {
    RegistryKept(l.policyTopics, rs, l.contexts, l.launching, contexts', launching');
    RegistryKept(l.observationTopics, rs, l.contexts, l.launching, contexts', launching');
    HandlesRemoved(l.simHandles, l.tfHandles, l.started, l.cancelled, rs);
    LiveWithout(l.simHandles, rs, l.contexts, contexts');
    LiveWithout(l.tfHandles, rs, l.contexts, contexts');
  }

  lemma RetireCancels(l: Life, rs: set<Ctx>, how: How, cancels': multiset<Ctx>, c: Ctx)
    requires StagesOk(l) && GoalsOk(l) && Retirable(l, rs)
    requires cancels' == l.cancels + if how.ByReset? then multiset(Holding(l.contexts, rs)) else multiset{}
    ensures cancels'[c] == CancelsDue(Retire(l, rs, how), c)
  {
    assert l.cancels[c] == CancelsDue(l, c);
    if c in rs {
      assert c !in l.retired;
    }
  }

  lemma RetireGoals(l: Life, rs: set<Ctx>, how: How, cancels': multiset<Ctx>)
    requires StagesOk(l) && GoalsOk(l) && Retirable(l, rs)
    requires cancels' == l.cancels + if how.ByReset? then multiset(Holding(l.contexts, rs)) else multiset{}
    ensures GoalsOk(Retire(l, rs, how).(cancels := cancels'))
  {
    var l0 := Retire(l, rs, how);
    var l' := l0.(cancels := cancels');
    forall c: Ctx ensures l'.cancels[c] == CancelsDue(l', c) {
      RetireCancels(l, rs, how, cancels', c);
      assert CancelsDue(l', c) == CancelsDue(l0, c);
    }
  }

  lemma RetireReports(l: Life, rs: set<Ctx>, how: How, reports': multiset<Ctx>)
    requires StagesOk(l) && ReportsOk(l) && Retirable(l, rs)
    requires reports' == l.reports + if how.ByReset? then multiset(rs) else multiset{}
    ensures ReportsOk(Retire(l, rs, how).(reports := reports'))
  {
    var l' := Retire(l, rs, how).(reports := reports');
    forall c: Ctx
      ensures l'.reports[c] == if c in l'.retired && l'.retired[c].how.ByReset? then 1 else 0
    {
      assert l.reports[c] == if c in l.retired && l.retired[c].how.ByReset? then 1 else 0;
      if c in rs {
        assert c !in l.retired;
      }
    }
  }

  lemma RetireEnds(l: Life, rs: set<Ctx>, how: How)
    requires StagesOk(l) && EndsOk(l) && Retirable(l, rs)
    ensures EndsOk(Retire(l, rs, how))
  {
    var l' := Retire(l, rs, how);
    forall c: Ctx ensures l'.endEvents[c] == EndsDue(l', c) {
      assert l.endEvents[c] == EndsDue(l, c);
      if c in rs {
        assert c !in l.retired;
      }
    }
  }

  /** The parts of the invariant read different fields. */
  lemma FieldsApart(l: Life, rs: set<Ctx>, how: How, cancels': multiset<Ctx>, reports': multiset<Ctx>)
    requires var l0 := Retire(l, rs, how);
             && StagesOk(l0) && RegistriesOk(l0) && PollingOk(l0) && EndsOk(l0)
             && GoalsOk(l0.(cancels := cancels')) && ReportsOk(l0.(reports := reports'))
    ensures LifeInv(Retire(l, rs, how).(cancels := cancels', reports := reports'))
  {
    var l0 := Retire(l, rs, how);
    var l1, l2 := l0.(cancels := cancels'), l0.(cancels := cancels', reports := reports');
    forall c: Ctx ensures l2.cancels[c] == CancelsDue(l2, c) {
      assert l1.cancels[c] == CancelsDue(l1, c);
    }
    forall c: Ctx ensures l2.endEvents[c] == EndsDue(l2, c) {
      assert l0.endEvents[c] == EndsDue(l0, c);
    }
  }

  lemma RetireKeeps(l: Life, rs: set<Ctx>, how: How, cancels': multiset<Ctx>, reports': multiset<Ctx>)
    requires LifeInv(l) && Retirable(l, rs)
    requires cancels' == l.cancels + if how.ByReset? then multiset(Holding(l.contexts, rs)) else multiset{}
    requires reports' == l.reports + if how.ByReset? then multiset(rs) else multiset{}
    ensures LifeInv(Retire(l, rs, how).(cancels := cancels', reports := reports'))
  {
    RetireStages(l, rs, how);
    UnregisterKeeps(l, rs, l.contexts - rs, l.launching);
    RetireGoals(l, rs, how, cancels');
    RetireReports(l, rs, how, reports');
    RetireEnds(l, rs, how);
    FieldsApart(l, rs, how, cancels', reports');
  }

  lemma AbortKeeps(l: Life, c: Ctx)
    requires LifeInv(l) && CleanEnabled(l, Abort(c))
    ensures LifeInv(CleanNext(l, Abort(c)))
  {
    var l' := CleanNext(l, Abort(c));
    assert LaunchOk(l.launching[c], c, l.contexts, l.retired.Keys);
    UnregisterKeeps(l, {c}, l.contexts, l.launching - {c});
    forall d: Ctx ensures l'.cancels[d] == CancelsDue(l', d) {
      assert l.cancels[d] == CancelsDue(l, d);
    }
    forall d: Ctx ensures l'.endEvents[d] == EndsDue(l', d) {
      assert l.endEvents[d] == EndsDue(l, d);
    }
    forall d | d in l'.launching ensures LaunchOk(l'.launching[d], d, l'.contexts, l'.retired.Keys) {
      assert LaunchOk(l.launching[d], d, l.contexts, l.retired.Keys);
    }
  }

  lemma DropDeferred(l: Life, i: nat)
    requires LifeInv(l) && i < |l.deferred|
    ensures LifeInv(l.(deferred := l.deferred[..i] + l.deferred[i + 1..]))
  {
    var l' := l.(deferred := l.deferred[..i] + l.deferred[i + 1..]);
    forall d: Ctx ensures l'.cancels[d] == CancelsDue(l', d) {
      assert l.cancels[d] == CancelsDue(l, d);
    }
    forall d: Ctx ensures l'.endEvents[d] == EndsDue(l', d) {
      assert l.endEvents[d] == EndsDue(l, d);
    }
  }

  lemma SendEndsGoals(l: Life, now: int)
    requires GoalsOk(l)
    ensures GoalsOk(SendEnds(l, now))
  {
    var l' := SendEnds(l, now);
    forall d: Ctx ensures l'.cancels[d] == CancelsDue(l', d) {
      assert l.cancels[d] == CancelsDue(l, d);
    }
  }

  lemma SendEndsCounts(l: Life, now: int)
    requires StagesOk(l) && EndsOk(l)
    ensures EndsOk(SendEnds(l, now))
  {
    var l' := SendEnds(l, now);
    forall d: Ctx ensures l'.endEvents[d] == EndsDue(l', d) {
      assert l.endEvents[d] == EndsDue(l, d);
    }
  }

  /** Sending end events changes no more than the marks of the contexts concerned. */
  lemma SendEndsKeeps(l: Life, now: int)
    requires LifeInv(l)
    ensures LifeInv(SendEnds(l, now))
  {
    ContextChanged(l, MarkEnded(l.contexts, EndingOf(l.useSim, now, l.contexts)), l.goals);
    SendEndsGoals(l, now);
    SendEndsCounts(l, now);
  }

  lemma CleanKeeps(l: Life, step: CleanStep)
    requires LifeInv(l) && CleanEnabled(l, step)
    ensures LifeInv(CleanNext(l, step))
  {
    match step
    case Abort(c) => AbortKeeps(l, c);
    case Timer(now) =>
      var l1 := SendEnds(l, now);
      SendEndsKeeps(l, now);
      DueRetirable(l, now);
      RetireKeeps(l1, DueSet(l, now), ByTimer, l1.cancels, l1.reports);
    case Handle(i) =>
      var rs := Failing(l, l.deferred[i]);
      FailingRetirable(l, l.deferred[i]);
      RetireKeeps(l, rs, ByReset, l.cancels + multiset(Holding(l.contexts, rs)), l.reports + multiset(rs));
      DropDeferred(HandleReset(l, l.deferred[i]), i);
  }

  lemma StepKeepsLife(l: Life, step: LifeStep)
    requires LifeInv(l) && Enabled(l, step)
    ensures LifeInv(Apply(l, step))
  {
    match step
    case Launch(s) => LaunchKeeps(l, s);
    case Listen(s) => ListenKeeps(l, s);
    case Clean(s) => CleanKeeps(l, s);
  }

  // ---------- every reachable state ----------

  ghost predicate LifeMoves(l: Life, step: LifeStep, l': Life) {
    Enabled(l, step) && l' == Apply(l, step)
  }

  ghost predicate LifeRun(states: seq<Life>, steps: seq<LifeStep>) {
    && |states| == |steps| + 1 && states[0] == Fresh(states[0].useSim)
    && forall i :: 0 <= i < |steps| ==> LifeMoves(states[i], steps[i], states[i + 1])
  }

  lemma {:induction false} LifeAlwaysOk(states: seq<Life>, steps: seq<LifeStep>, n: nat)
    requires LifeRun(states, steps) && n < |states|
    ensures LifeInv(states[n])
  {
    if n > 0 {
      LifeAlwaysOk(states, steps, n - 1);
      assert LifeMoves(states[n - 1], steps[n - 1], states[n]);
      StepKeepsLife(states[n - 1], steps[n - 1]);
    }
  }

  /** An accepted goal of a context retired by a reset has exactly one cancel request, no other goal of such a
      context has any, and the context is reported failed exactly once. A goal whose context the timer retired is
      cancelled, once, exactly when the response came too late. */
  ghost predicate SettledOnce(l: Life, c: Ctx)
    requires c in l.retired
  {
    var accepted := c in l.goals && l.goals[c].Accepted?;
    && c !in l.contexts
    && (l.retired[c].how.ByReset? ==> l.cancels[c] == (if accepted then 1 else 0) && l.reports[c] == 1)
    && (l.retired[c].how.ByTimer? ==>
          l.cancels[c] == (if accepted && !l.retired[c].hadHandle then 1 else 0) && l.reports[c] == 0)
  }

  lemma RetiredSettledOnce(l: Life, c: Ctx)
    requires LifeInv(l) && c in l.retired
    ensures SettledOnce(l, c)
  {
    assert l.cancels[c] == CancelsDue(l, c);
  }

  /** In any order of clock reset, deferred handler, timer retirement and goal response. */
  lemma ResetAndResponse(states: seq<Life>, steps: seq<LifeStep>, n: nat, c: Ctx)
    requires LifeRun(states, steps) && n < |states| && c in states[n].retired
    ensures SettledOnce(states[n], c)
  {
    LifeAlwaysOk(states, steps, n);
    RetiredSettledOnce(states[n], c);
  }

  /** A live context's goal has not been cancelled and its failure has not been reported. */
  lemma LiveUntouched(states: seq<Life>, steps: seq<LifeStep>, n: nat, c: Ctx)
    requires LifeRun(states, steps) && n < |states| && c in states[n].contexts
    ensures states[n].cancels[c] == 0 && states[n].reports[c] == 0
  {
    LifeAlwaysOk(states, steps, n);
    assert states[n].cancels[c] == CancelsDue(states[n], c);
  }

  /** The timer sends a context's end event at most once; a rejection that finds the context live is recorded as its
      failed result and sends one too, whether or not the timer has or will. */
  lemma EndEventsAccounted(states: seq<Life>, steps: seq<LifeStep>, n: nat, c: Ctx)
    requires LifeRun(states, steps) && n < |states|
    ensures var l := states[n];
            && l.rejections[c] == (if c in l.goals && l.goals[c] == Rejected(true) then 1 else 0)
            && l.endEvents[c] == l.rejections[c]
               + (if c in l.contexts && l.contexts[c].endSent then 1
                   else if c in l.retired && l.retired[c].endSent then 1 else 0)
  {
    LifeAlwaysOk(states, steps, n);
    assert states[n].endEvents[c] == EndsDue(states[n], c);
  }

  /** Nothing is registered for the context. */
  ghost predicate Unregistered(l: Life, c: Ctx) {
    && (forall t :: t in l.policyTopics ==> c !in l.policyTopics[t])
    && (forall t :: t in l.observationTopics ==> c !in l.observationTopics[t])
    && (forall k :: k in l.simHandles ==> k.0 != c) && (forall k :: k in l.tfHandles ==> k.0 != c)
  }

  /** A polling handle is cancelled exactly when it is no longer filed. */
  ghost predicate HandlesAccounted(l: Life) {
    forall h :: 0 <= h < l.started ==>
      (h in l.cancelled <==> h !in l.simHandles.Values && h !in l.tfHandles.Values)
  }

  /** After retirement, or after an aborted launch, nothing is registered for a context, and every polling handle
      that is not filed under a live context has been cancelled. */
  lemma NothingLeftBehind(states: seq<Life>, steps: seq<LifeStep>, n: nat, c: Ctx)
    requires LifeRun(states, steps) && n < |states|
    requires c !in states[n].contexts && !InPc(states[n], c, Registering)
    ensures Unregistered(states[n], c) && HandlesAccounted(states[n])
  {
    LifeAlwaysOk(states, steps, n);
  }

  ghost predicate SameAt<K, V>(m: map<K, V>, m': map<K, V>, k: K) {
    (k in m <==> k in m') && (k in m ==> m'[k] == m[k])
  }

  ghost predicate SameTopics(reg: Registry, reg': Registry, c: Ctx) {
    reg'.Keys == reg.Keys && forall t :: t in reg ==> SameAt(reg[t], reg'[t], c)
  }

  ghost predicate SameHandles(hs: Handles, hs': Handles, c: Ctx) {
    forall uri :: SameAt(hs, hs', (c, uri))
  }

  /** Everything the coordinator holds about one context. */
  ghost predicate SameFootprint(l: Life, l': Life, c: Ctx) {
    && SameAt(l.contexts, l'.contexts, c) && SameAt(l.launching, l'.launching, c)
    && SameAt(l.goals, l'.goals, c) && SameAt(l.retired, l'.retired, c)
    && SameTopics(l.policyTopics, l'.policyTopics, c) && SameTopics(l.observationTopics, l'.observationTopics, c)
    && SameHandles(l.simHandles, l'.simHandles, c) && SameHandles(l.tfHandles, l'.tfHandles, c)
    && l'.cancels[c] == l.cancels[c] && l'.reports[c] == l.reports[c]
    && l'.endEvents[c] == l.endEvents[c] && l'.rejections[c] == l.rejections[c]
  }

  lemma TopicsApart(reg: Registry, rs: set<Ctx>, c: Ctx)
    requires c !in rs
    ensures SameTopics(reg, RegWithout(reg, rs), c)
  {
  }

  lemma HandlesApart(hs: Handles, rs: set<Ctx>, c: Ctx)
    requires c !in rs
    ensures SameHandles(hs, HandlesWithout(hs, rs), c)
  {
  }

  lemma CountsApart(m: multiset<Ctx>, rs: set<Ctx>, c: Ctx)
    requires c !in rs
    ensures (m + multiset(rs))[c] == m[c]
  {
  }

  lemma ContextsApart(l: Life, rs: set<Ctx>, how: How, c: Ctx)
    requires c !in rs
    ensures SameAt(l.contexts, l.contexts - rs, c)
    ensures SameAt(l.retired, Retire(l, rs, how).retired, c)
  {
  }

  lemma HandlerTouchesOnlyCaptured(l: Life, i: nat, c: Ctx)
    requires i < |l.deferred| && c !in l.deferred[i]
    ensures SameFootprint(l, CleanNext(l, Handle(i)), c)
  {
    var rs := Failing(l, l.deferred[i]);
    TopicsApart(l.policyTopics, rs, c);
    TopicsApart(l.observationTopics, rs, c);
    HandlesApart(l.simHandles, rs, c);
    HandlesApart(l.tfHandles, rs, c);
    CountsApart(l.cancels, Holding(l.contexts, rs), c);
    CountsApart(l.reports, rs, c);
    ContextsApart(l, rs, ByReset, c);
  }

  /** A handler whose reset was captured by the time of `states[i]` leaves alone every context created after. */
  lemma LaterContextsUntouched(states: seq<Life>, steps: seq<LifeStep>, i: nat, n: nat, j: nat, k: nat, c: Ctx)
    requires LifeRun(states, steps) && i <= n < |states|
    requires j < |states[i].deferred| && k < |states[n].deferred| && states[n].deferred[k] == states[i].deferred[j]
    requires c !in states[i].created
    ensures SameFootprint(states[n], CleanNext(states[n], Handle(k)), c)
  {
    LifeAlwaysOk(states, steps, i);
    assert c !in states[i].deferred[j];
    HandlerTouchesOnlyCaptured(states[n], k, c);
  }
}
