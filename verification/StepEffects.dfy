/** What the timer, a clock reset, its handler and the registrations do to a context, read off its manager and the
    tables. */
module StepEffects {
  import opened StatusMessages
  import opened Lifecycle

  // ---------- the status timer ----------

  /** Under simulated time, the context started after what is now the present. */
  predicate FromTheFuture(useSim: bool, now: int, m: Manager) {
    useSim && m.start.Some? && now < m.start.value
  }

  /** The scenario has ended, and the present has reached the end of each policy, or the scenario's end if none has one. */
  ghost predicate IsOver(now: int, m: Manager) {
    && m.end.Some?
    && (forall e :: e in m.policyEnds ==> now >= e)
    && (m.policyEnds == [] ==> now >= m.end.value)
  }

  /** An end is pending, is due, and has not been announced. */
  predicate EndIsDue(now: int, x: Context) {
    !x.endSent && x.mgr.deadline.Some? && now >= x.mgr.deadline.value
  }

  lemma DueIs(useSim: bool, now: int, m: Manager)
    ensures Due(useSim, now, m) <==> !FromTheFuture(useSim, now, m) && IsOver(now, m)
  {
    if m.policyEnds != [] {
      assert MaxOf(m.policyEnds) in m.policyEnds;
    }
  }

  lemma EndingIs(useSim: bool, now: int, contexts: map<Ctx, Context>, c: Ctx)
    ensures c in EndingOf(useSim, now, contexts) <==>
            c in contexts && !FromTheFuture(useSim, now, contexts[c].mgr) && EndIsDue(now, contexts[c])
  {
  }

  lemma RetireTakes(l: Life, rs: set<Ctx>, how: How, c: Ctx)
    requires c in rs && c in l.contexts
    ensures var l' := Retire(l, rs, how);
            c !in l'.contexts && Unregistered(l', c)
            && c in l'.retired && l'.retired[c] == Retirement(how, l.contexts[c].goalHandle, l.contexts[c].endSent)
  {
  }

  lemma RetireSpares(l: Life, rs: set<Ctx>, how: How, c: Ctx)
    requires c !in rs
    ensures SameFootprint(l, Retire(l, rs, how), c)
  {
    TopicsApart(l.policyTopics, rs, c);
    TopicsApart(l.observationTopics, rs, c);
    HandlesApart(l.simHandles, rs, c);
    HandlesApart(l.tfHandles, rs, c);
    ContextsApart(l, rs, how, c);
  }

  /** The context with its end announced, if that is due. */
  function Marked(useSim: bool, now: int, x: Context): Context {
    x.(endSent := x.endSent || (!FromTheFuture(useSim, now, x.mgr) && EndIsDue(now, x)))
  }

  lemma SendsExactly(l: Life, now: int, c: Ctx)
    requires c in l.contexts
    ensures var l' := SendEnds(l, now);
            && l' == l.(contexts := l'.contexts, endEvents := l'.endEvents)
            && c in l'.contexts && l'.contexts[c] == Marked(l.useSim, now, l.contexts[c])
            && l'.endEvents[c] == l.endEvents[c]
               + if !FromTheFuture(l.useSim, now, l.contexts[c].mgr) && EndIsDue(now, l.contexts[c]) then 1 else 0
  {
    EndingIs(l.useSim, now, l.contexts, c);
  }

  /** A timer callback retires a live context if and only if the context is not from the future and is over. It announces
      and marks a due end, once, also of the contexts it retires. */
  lemma TimerExactly(l: Life, now: int, c: Ctx)
    requires StagesOk(l) && c in l.contexts
    ensures var l', x := CleanNext(l, Timer(now)), l.contexts[c];
            var marked := Marked(l.useSim, now, x);
            && (if !FromTheFuture(l.useSim, now, x.mgr) && IsOver(now, x.mgr) then
                  c !in l'.contexts && Unregistered(l', c)
                  && c in l'.retired && l'.retired[c] == Retirement(ByTimer, x.goalHandle, marked.endSent)
                else c in l'.contexts && l'.contexts[c] == marked && c !in l'.retired)
            && l'.endEvents[c] == l.endEvents[c]
               + if !FromTheFuture(l.useSim, now, x.mgr) && EndIsDue(now, x) then 1 else 0
  {
    var l1, rs := SendEnds(l, now), DueSet(l, now);
    DueIs(l.useSim, now, l.contexts[c].mgr);
    assert c in rs <==> Due(l.useSim, now, l.contexts[c].mgr);
    SendsExactly(l, now, c);
    if c in rs {
      RetireTakes(l1, rs, ByTimer, c);
    } else {
      RetireSpares(l1, rs, ByTimer, c);
    }
  }

  /** Of a context that it keeps it changes no more than that mark and that count. */
  lemma TimerKeepsRest(l: Life, now: int, c: Ctx)
    requires c in l.contexts ==> FromTheFuture(l.useSim, now, l.contexts[c].mgr) || !IsOver(now, l.contexts[c].mgr)
    ensures var l' := CleanNext(l, Timer(now));
            && SameFootprint(l, l'.(contexts := l.contexts, endEvents := l.endEvents), c) && l'.deferred == l.deferred
            && (c !in l.contexts ==> c !in l'.contexts && l'.endEvents[c] == l.endEvents[c])
  {
    if c in l.contexts {
      DueIs(l.useSim, now, l.contexts[c].mgr);
    }
    RetireSpares(SendEnds(l, now), DueSet(l, now), ByTimer, c);
  }

  // ---------- clock resets ----------

  ghost predicate LiveAndStarted(l: Life, c: Ctx) {
    c in l.contexts && l.contexts[c].mgr.start.Some?
  }

  /** A reset defers one handler with exactly the live contexts that have a start, and none if there is none. */
  lemma ResetExactly(l: Life)
    ensures var l' := ListenNext(l, ClockReset);
            if exists c :: LiveAndStarted(l, c) then
              && |l'.deferred| == |l.deferred| + 1 && l' == l.(deferred := l.deferred + [l'.deferred[|l.deferred|]])
              && forall c :: c in l'.deferred[|l.deferred|] <==> LiveAndStarted(l, c)
            else l' == l
  {
    var ids := StartedSet(l.contexts);
    assert forall c :: c in ids <==> LiveAndStarted(l, c);
    if ids != {} {
      var c := AnElement(ids);
      assert LiveAndStarted(l, c);
    }
  }

  /** The handler's step, field by field. */
  lemma HandlerFields(l: Life, i: nat)
    requires i < |l.deferred|
    ensures var l', rs := CleanNext(l, Handle(i)), Failing(l, l.deferred[i]);
            l' == Retire(l, rs, ByReset).(cancels := l.cancels + multiset(Holding(l.contexts, rs)),
                                          reports := l.reports + multiset(rs),
                                          deferred := l.deferred[..i] + l.deferred[i + 1..])
  {
  }

  lemma HandlerCounts(l: Life, rs: set<Ctx>, c: Ctx)
    requires rs <= l.contexts.Keys
    ensures (l.reports + multiset(rs))[c] == l.reports[c] + (if c in rs then 1 else 0)
    ensures (l.cancels + multiset(Holding(l.contexts, rs)))[c]
            == l.cancels[c] + (if c in rs && l.contexts[c].goalHandle then 1 else 0)
  {
  }

  /** Retirement reads the same with other counts and handlers. */
  lemma SameRetired(l: Life, l1: Life, l': Life, c: Ctx)
    requires l' == l1.(cancels := l'.cancels, reports := l'.reports, deferred := l'.deferred)
    ensures Unregistered(l1, c) ==> Unregistered(l', c)
    ensures SameFootprint(l, l1, c) && l'.cancels[c] == l1.cancels[c] && l'.reports[c] == l1.reports[c] ==>
              SameFootprint(l, l', c)
  {
  }

  /** A handler fails exactly the captured contexts that are live and have a start: each is reported once, its goal is
      cancelled if it is held, and nothing of it stays registered. All others stay. The handler is then gone. */
  lemma HandlerExactly(l: Life, i: nat, c: Ctx)
    requires i < |l.deferred|
    ensures var l', fails := CleanNext(l, Handle(i)), c in l.deferred[i] && LiveAndStarted(l, c);
            && l'.deferred == l.deferred[..i] + l.deferred[i + 1..]
            && l'.reports[c] == l.reports[c] + (if fails then 1 else 0)
            && l'.cancels[c] == l.cancels[c] + (if fails && l.contexts[c].goalHandle then 1 else 0)
            && if fails then
                 c !in l'.contexts && Unregistered(l', c) && c in l'.retired
                 && l'.retired[c] == Retirement(ByReset, l.contexts[c].goalHandle, l.contexts[c].endSent)
               else SameFootprint(l, l', c)
  {
    var l', rs := CleanNext(l, Handle(i)), Failing(l, l.deferred[i]);
    var l1 := Retire(l, rs, ByReset);
    HandlerFields(l, i);
    HandlerCounts(l, rs, c);
    if c in rs {
      RetireTakes(l, rs, ByReset, c);
    } else {
      RetireSpares(l, rs, ByReset, c);
    }
    SameRetired(l, l1, l', c);
  }

  /** The handler of these contexts would fail one. */
  ghost predicate SomeFail(l: Life, ids: set<Ctx>) {
    exists c :: c in ids && LiveAndStarted(l, c)
  }

  lemma FailingIs(l: Life, ids: set<Ctx>)
    ensures Failing(l, ids) != {} <==> SomeFail(l, ids)
  {
    if Failing(l, ids) != {} {
      var c := AnElement(Failing(l, ids));
      assert c in ids && LiveAndStarted(l, c);
    }
    if c :| c in ids && LiveAndStarted(l, c) {
      assert c in Failing(l, ids);
    }
  }

  // ---------- goal responses ----------

  /** A response to a goal: an acceptance that finds the context live gives it the goal's handle, one that comes too late
      cancels the goal at once; a rejection that finds the context live is recorded as its failed result and sends its end
      event, one that comes too late does nothing. */
  lemma ResponseExactly(l: Life, c: Ctx, accepted: bool)
    requires ListenEnabled(l, Response(c, accepted))
    ensures accepted && c in l.contexts ==>
              ListenNext(l, Response(c, accepted))
              == l.(goals := l.goals[c := Accepted], contexts := l.contexts[c := l.contexts[c].(goalHandle := true)])
    ensures accepted && c !in l.contexts ==>
              ListenNext(l, Response(c, accepted))
              == l.(goals := l.goals[c := Accepted], cancels := l.cancels + multiset{c})
    ensures !accepted && c in l.contexts ==>
              ListenNext(l, Response(c, accepted))
              == l.(goals := l.goals[c := Rejected(true)], rejections := l.rejections + multiset{c},
                    endEvents := l.endEvents + multiset{c})
    ensures !accepted && c !in l.contexts ==>
              ListenNext(l, Response(c, accepted)) == l.(goals := l.goals[c := Rejected(false)])
  {
  }

  // ---------- registrations ----------

  ghost predicate IsRegistered(reg: Registry, topic: Topic, c: Ctx, uri: Uri) {
    topic in reg && c in reg[topic] && uri in reg[topic][c]
  }

  /** Registering adds the one registration and keeps all others. */
  lemma RegisterExactly(reg: Registry, topic: Topic, c: Ctx, uri: Uri, topic': Topic, c': Ctx, uri': Uri)
    ensures IsRegistered(RegisterIn(reg, topic, c, uri), topic', c', uri') <==>
            IsRegistered(reg, topic', c', uri') || (topic' == topic && c' == c && uri' == uri)
  {
  }

  /** A policy is registered in the one registry and an observation provider in the other; polling for a provider files
      a handle that no other has. Each leaves the other tables, and the contexts, alone. */
  lemma RegistrationsExactly(l: Life, c: Ctx, topic: Topic, uri: Uri)
    ensures var l' := LaunchNext(l, RegisterPolicy(c, topic, uri));
            l' == l.(policyTopics := l'.policyTopics)
            && forall t, d, u :: IsRegistered(l'.policyTopics, t, d, u) <==>
                 IsRegistered(l.policyTopics, t, d, u) || (t == topic && d == c && u == uri)
    ensures var l' := LaunchNext(l, RegisterObservation(c, topic, uri));
            l' == l.(observationTopics := l'.observationTopics)
            && forall t, d, u :: IsRegistered(l'.observationTopics, t, d, u) <==>
                 IsRegistered(l.observationTopics, t, d, u) || (t == topic && d == c && u == uri)
  {
    forall t, d, u
      ensures IsRegistered(RegisterIn(l.policyTopics, topic, c, uri), t, d, u) <==>
              IsRegistered(l.policyTopics, t, d, u) || (t == topic && d == c && u == uri)
    {
      RegisterExactly(l.policyTopics, topic, c, uri, t, d, u);
    }
    forall t, d, u
      ensures IsRegistered(RegisterIn(l.observationTopics, topic, c, uri), t, d, u) <==>
              IsRegistered(l.observationTopics, t, d, u) || (t == topic && d == c && u == uri)
    {
      RegisterExactly(l.observationTopics, topic, c, uri, t, d, u);
    }
  }

  lemma PollingExactly(l: Life, c: Ctx, uri: Uri, d: Ctx, u: Uri)
    requires PollingOk(l)
    ensures var l' := LaunchNext(l, ActivateSim(c, uri));
            && l' == l.(simHandles := l'.simHandles, started := l.started + 1)
            && (if d == c && u == uri
                then (d, u) in l'.simHandles && l'.simHandles[(d, u)] !in l.simHandles.Values + l.tfHandles.Values + l.cancelled
                else SameAt(l.simHandles, l'.simHandles, (d, u)))
    ensures var l' := LaunchNext(l, ActivateTf(c, uri));
            && l' == l.(tfHandles := l'.tfHandles, started := l.started + 1)
            && (if d == c && u == uri
                then (d, u) in l'.tfHandles && l'.tfHandles[(d, u)] !in l.simHandles.Values + l.tfHandles.Values + l.cancelled
                else SameAt(l.tfHandles, l'.tfHandles, (d, u)))
  {
  }
}
