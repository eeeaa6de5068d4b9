/** The coordination node in simulation setup mode: its fields, the regions its callbacks run under the lock, and
    their agreement with the scheduler's steps. */
module CoordinationNode {
  import opened StatusMessages
  import opened Lifecycle
  import opened StepEffects
  import K = Coordinator

  // ---------- what retirement does to the node's tables ----------

  lemma RegistryTwice(reg: Registry, a: set<Ctx>, b: set<Ctx>)
    ensures RegWithout(RegWithout(reg, a), b) == RegWithout(reg, a + b)
  {
    forall t | t in reg ensures reg[t] - a - b == reg[t] - (a + b) {
    }
  }

  lemma HandlesTwice(hs: Handles, a: set<Ctx>, b: set<Ctx>)
    ensures HandlesWithout(HandlesWithout(hs, a), b) == HandlesWithout(hs, a + b)
  {
  }

  lemma HandlesOfTwice(hs: Handles, a: set<Ctx>, b: set<Ctx>)
    ensures HandlesOf(hs, a) + HandlesOf(HandlesWithout(hs, a), b) == HandlesOf(hs, a + b)
  {
    var rest := HandlesWithout(hs, a);
    forall h | h in HandlesOf(hs, a + b) ensures h in HandlesOf(hs, a) + HandlesOf(rest, b) {
      var k :| k in hs && k.0 in a + b && hs[k] == h;
      if k.0 !in a {
        assert k in rest && rest[k] == h;
      }
    }
    forall h | h in HandlesOf(rest, b) ensures h in HandlesOf(hs, a + b) {
      var k :| k in rest && k.0 in b && rest[k] == h;
      assert k in hs && hs[k] == h;
    }
  }

  /** Retiring contexts one after another, in any grouping, is retiring them together. */
  lemma RetiredTwice(t: Tables, a: set<Ctx>, b: set<Ctx>)
    ensures RetiredTables(RetiredTables(t, a), b) == RetiredTables(t, a + b)
  {
    RegistryTwice(t.policyTopics, a, b);
    RegistryTwice(t.observationTopics, a, b);
    HandlesTwice(t.simHandles, a, b);
    HandlesTwice(t.tfHandles, a, b);
    HandlesOfTwice(t.simHandles, a, b);
    HandlesOfTwice(t.tfHandles, a, b);
    assert t.contexts - a - b == t.contexts - (a + b);
  }

  lemma RegistryWhole(reg: Registry)
    ensures RegWithout(reg, {}) == reg
  {
    forall t | t in reg ensures reg[t] - {} == reg[t] {
    }
  }

  lemma RetiredNone(t: Tables)
    ensures RetiredTables(t, {}) == t
  {
    RegistryWhole(t.policyTopics);
    RegistryWhole(t.observationTopics);
    assert HandlesWithout(t.simHandles, {}) == t.simHandles;
    assert HandlesWithout(t.tfHandles, {}) == t.tfHandles;
    assert t.contexts - {} == t.contexts;
  }

  lemma DisjointUnion<T>(a: set<T>, b: set<T>)
    requires a !! b
    ensures multiset(a + b) == multiset(a) + multiset(b)
  {
  }

  /** The contexts to fail, one captured identifier more. */
  lemma FailingOneMore(contexts: map<Ctx, Context>, done: set<Ctx>, c: Ctx)
    requires c !in done
    ensures var rs := FailingOf(contexts, done);
            var one := FailingOf(contexts - rs, {c});
            && FailingOf(contexts, done + {c}) == rs + one
            && multiset(rs + one) == multiset(rs) + multiset(one)
            && multiset(Holding(contexts, rs + one))
               == multiset(Holding(contexts, rs)) + multiset(Holding(contexts - rs, one))
  {
    var rs := FailingOf(contexts, done);
    var one := FailingOf(contexts - rs, {c});
    assert FailingOf(contexts, done + {c}) == rs + one;
    assert Holding(contexts, rs + one) == Holding(contexts, rs) + Holding(contexts - rs, one);
    DisjointUnion(rs, one);
    DisjointUnion(Holding(contexts, rs), Holding(contexts - rs, one));
  }

  // ---------- the timer's and the handler's step, field by field ----------

  /** The statuses that the timer publishes, as far as the managers determine them. */
  function Statuses(useSim: bool, now: int, contexts: map<Ctx, Context>): map<Ctx, Manager> {
    map c | c in contexts && !Skipped(useSim, now, contexts[c].mgr) :: contexts[c].mgr
  }

  lemma MarkOneMore(contexts: map<Ctx, Context>, es: set<Ctx>, c: Ctx)
    requires c in contexts
    ensures MarkEnded(contexts, es + {c}) == MarkEnded(contexts, es)[c := contexts[c].(endSent := true)]
  {
  }

  /** The timer has surveyed all contexts but `todo`. */
  ghost predicate Surveyed(useSim: bool, now: int, before: map<Ctx, Context>, todo: set<Ctx>, contexts: map<Ctx, Context>,
                           statuses: map<Ctx, Manager>, finished: set<Ctx>) {
    && contexts == MarkEnded(before, EndingOf(useSim, now, before) - todo)
    && statuses == Statuses(useSim, now, before) - todo
    && finished == DueOf(useSim, now, before) - todo
  }

  lemma OneLess(es: set<Ctx>, todo: set<Ctx>, c: Ctx)
    requires c in todo
    ensures es - (todo - {c}) == if c in es then es - todo + {c} else es - todo
  {
  }

  lemma StatusesMore(useSim: bool, now: int, before: map<Ctx, Context>, todo: set<Ctx>, c: Ctx)
    requires c in todo && c in before
    ensures var m := Statuses(useSim, now, before);
            m - (todo - {c}) == if Skipped(useSim, now, before[c].mgr) then m - todo else (m - todo)[c := before[c].mgr]
  {
  }

  /** One context more. */
  lemma SurveyMore(useSim: bool, now: int, before: map<Ctx, Context>, todo: set<Ctx>, c: Ctx, contexts: map<Ctx, Context>,
                   statuses: map<Ctx, Manager>, finished: set<Ctx>)
    requires c in todo && c in before && Surveyed(useSim, now, before, todo, contexts, statuses, finished)
    ensures c in contexts && contexts[c] == before[c]
    ensures c in EndingOf(useSim, now, before) <==> c in EndingOf(useSim, now, contexts)
    ensures Surveyed(useSim, now, before, todo - {c},
                     if c in EndingOf(useSim, now, before) then contexts[c := contexts[c].(endSent := true)] else contexts,
                     if Skipped(useSim, now, before[c].mgr) then statuses else statuses[c := before[c].mgr],
                     if Due(useSim, now, before[c].mgr) then finished + {c} else finished)
  {
    var es := EndingOf(useSim, now, before);
    OneLess(es, todo, c);
    OneLess(DueOf(useSim, now, before), todo, c);
    StatusesMore(useSim, now, before, todo, c);
    if c in es {
      MarkOneMore(before, es - todo, c);
    }
  }

  lemma SurveyBegins(useSim: bool, now: int, before: map<Ctx, Context>)
    ensures Surveyed(useSim, now, before, before.Keys, before, map[], {})
    ensures EndingOf(useSim, now, before) - before.Keys == {}
  {
    assert MarkEnded(before, {}) == before;
  }

  lemma SurveyEnds(useSim: bool, now: int, before: map<Ctx, Context>, contexts: map<Ctx, Context>,
                   statuses: map<Ctx, Manager>, finished: set<Ctx>)
    requires Surveyed(useSim, now, before, {}, contexts, statuses, finished)
    ensures contexts == MarkEnded(before, EndingOf(useSim, now, before)) && statuses == Statuses(useSim, now, before)
    ensures finished == DueOf(useSim, now, before)
    ensures EndingOf(useSim, now, before) - {} == EndingOf(useSim, now, before)
  {
    assert Statuses(useSim, now, before) - {} == Statuses(useSim, now, before);
  }

  lemma FinishedAre(useSim: bool, now: int, before: map<Ctx, Context>)
    ensures forall c :: c in DueOf(useSim, now, before) <==>
              c in before && !FromTheFuture(useSim, now, before[c].mgr) && IsOver(now, before[c].mgr)
  {
    forall c | c in before
      ensures Due(useSim, now, before[c].mgr) <==>
              !FromTheFuture(useSim, now, before[c].mgr) && IsOver(now, before[c].mgr)
    {
      DueIs(useSim, now, before[c].mgr);
    }
  }

  /** Between the two states the node retires `rs` from `t`, with these requests to cancel goals and these failures. */
  ghost predicate RetirementStep(s: K.Coord, s': K.Coord, t: Tables, rs: set<Ctx>, cancels: set<Ctx>, failed: set<Ctx>) {
    && TablesOf(s'.life) == RetiredTables(t, rs)
    && s'.life.cancels == s.life.cancels + multiset(cancels) && s'.life.reports == s.life.reports + multiset(failed)
    && s'.life.rejections == s.life.rejections
    && s'.life.started == s.life.started && s'.life.useSim == s.life.useSim && s'.setupActive == s.setupActive
  }

  ghost predicate TimerStep(s: K.Coord, s': K.Coord, now: int) {
    var es := EndingOf(s.life.useSim, now, s.life.contexts);
    && RetirementStep(s, s', TablesOf(s.life).(contexts := MarkEnded(s.life.contexts, es)),
                      DueOf(s.life.useSim, now, s.life.contexts), {}, {})
    && s'.life.endEvents == s.life.endEvents + multiset(es)
    && s'.life.deferred == s.life.deferred && s'.pending == s.pending
  }

  lemma TimerSteps(s: K.Coord, now: int)
    requires s.life.contexts != map[]
    ensures TimerStep(s, K.WorldNext(s, K.StatusTimer(now)), now)
  {
  }

  /** Which contexts the timer leaves. */
  lemma TimerLeaves(s: K.Coord, now: int)
    requires s.life.contexts != map[]
    ensures var l, l' := s.life, K.WorldNext(s, K.StatusTimer(now)).life;
            l'.contexts.Keys <= l.contexts.Keys
            && forall c :: c in l.contexts ==>
                 (c in l'.contexts <==>
                  FromTheFuture(l.useSim, now, l.contexts[c].mgr) || !IsOver(now, l.contexts[c].mgr))
  {
    K.TimerEffect(s.life, now);
    FinishedAre(s.life.useSim, now, s.life.contexts);
  }

  lemma HandleFields(l: Life, i: nat)
    requires CleanEnabled(l, Handle(i))
    ensures var l', rs := CleanNext(l, Handle(i)), FailingOf(l.contexts, l.deferred[i]);
            && TablesOf(l') == RetiredTables(TablesOf(l), rs)
            && l'.cancels == l.cancels + multiset(Holding(l.contexts, rs)) && l'.reports == l.reports + multiset(rs)
            && l'.rejections == l.rejections && l'.endEvents == l.endEvents
            && l'.started == l.started && l'.useSim == l.useSim
            && l'.deferred == l.deferred[..i] + l.deferred[i + 1..]
  {
  }

  ghost predicate ResetStep(s: K.Coord, s': K.Coord, i: nat)
    requires i < |s.life.deferred|
  {
    var rs := FailingOf(s.life.contexts, s.life.deferred[i]);
    && RetirementStep(s, s', TablesOf(s.life), rs, Holding(s.life.contexts, rs), rs)
    && s'.life.endEvents == s.life.endEvents
    && s'.life.deferred == s.life.deferred[..i] + s.life.deferred[i + 1..]
    && s'.pending == if rs == {} then s.pending else []
  }

  lemma ResetSteps(s: K.Coord, i: nat)
    requires K.WorldEnabled(s, K.ResetHandler(i))
    ensures ResetStep(s, K.WorldNext(s, K.ResetHandler(i)), i)
  {
    HandleFields(s.life, i);
    assert K.WorldNext(s, K.ResetHandler(i)).life == CleanNext(s.life, Handle(i));
  }

  /** An idle scheduler with a request that has appended its first `i` variations. */
  function Requested(s: K.Coord, vs: seq<K.Variation>, i: nat): K.Coord
    requires i <= |vs|
  {
    s.(starters := s.starters + [vs[i..]], pending := vs[..i], enqueued := s.enqueued + vs[..i])
  }

  lemma RequestedMore(s: K.Coord, vs: seq<K.Variation>, i: nat)
    requires i < |vs|
    ensures var n, r := |s.starters|, Requested(s, vs, i);
            && K.RequestEnabled(r, K.Append(n)) && r.starters[n][0] == vs[i]
            && K.RequestNext(r, K.Append(n)) == Requested(s, vs, i + 1)
  {
    var n, r, r' := |s.starters|, Requested(s, vs, i), Requested(s, vs, i + 1);
    assert vs[i..][1..] == vs[i + 1..];
    assert r.starters[n := vs[i + 1..]] == r'.starters;
    assert vs[..i] + [vs[i]] == vs[..i + 1];
    assert r.enqueued + [vs[i]] == r'.enqueued;
  }

  /** What a goal response does to the node's fields. */
  ghost predicate ResponseStep(s: K.Coord, s': K.Coord, c: Ctx, accepted: bool) {
    var l, l', live := s.life, s'.life, c in s.life.contexts;
    && TablesOf(l') == TablesOf(l).(contexts :=
         if live && accepted then l.contexts[c := l.contexts[c].(goalHandle := true)] else l.contexts)
    && l'.cancels == l.cancels + (if !live && accepted then multiset{c} else multiset{})
    && l'.rejections == l.rejections + (if live && !accepted then multiset{c} else multiset{})
    && l'.endEvents == l.endEvents + (if live && !accepted then multiset{c} else multiset{})
    && l'.reports == l.reports && l'.deferred == l.deferred && l'.started == l.started && l'.useSim == l.useSim
    && s'.pending == s.pending && s'.setupActive == s.setupActive
  }

  lemma ResponseSteps(s: K.Coord, c: Ctx, accepted: bool)
    requires K.WorldEnabled(s, K.Listens(Response(c, accepted)))
    ensures ResponseStep(s, K.WorldNext(s, K.Listens(Response(c, accepted))), c, accepted)
  {
  }

  /** Between the two states only the tables and the number of handles started change, to these. */
  ghost predicate TablesStep(s: K.Coord, s': K.Coord, t: Tables, started: nat) {
    && TablesOf(s'.life) == t && s'.life.started == started
    && s'.life.cancels == s.life.cancels && s'.life.reports == s.life.reports
    && s'.life.endEvents == s.life.endEvents && s'.life.rejections == s.life.rejections
    && s'.life.deferred == s.life.deferred && s'.life.useSim == s.life.useSim
    && s'.pending == s.pending && s'.setupActive == s.setupActive
  }

  lemma FailSteps(s: K.Coord, c: Ctx)
    requires s.pc.Failed? && s.pc.ctx == c && K.SetupEnabled(s, K.FailCleanup)
    ensures TablesStep(s, K.SetupNext(s, K.FailCleanup), Unlisted(TablesOf(s.life), {c}), s.life.started)
  {
    assert K.SetupNext(s, K.FailCleanup).life == CleanNext(s.life, Abort(c));
  }

  lemma SimPollingSteps(s: K.Coord, c: Ctx, uri: Uri)
    requires K.SetupEnabled(s, K.Activate(ActivateSim(c, uri)))
    ensures var t := TablesOf(s.life);
            TablesStep(s, K.SetupNext(s, K.Activate(ActivateSim(c, uri))),
                       t.(simHandles := t.simHandles[(c, uri) := s.life.started]), s.life.started + 1)
  {
  }

  lemma TfPollingSteps(s: K.Coord, c: Ctx, uri: Uri)
    requires K.SetupEnabled(s, K.Activate(ActivateTf(c, uri)))
    ensures var t := TablesOf(s.life);
            TablesStep(s, K.SetupNext(s, K.Activate(ActivateTf(c, uri))),
                       t.(tfHandles := t.tfHandles[(c, uri) := s.life.started]), s.life.started + 1)
  {
  }

  // ---------- the node ----------

  /** The next element of a set, whose iteration order is arbitrary. */
  method Pick<T(==)>(s: set<T>) returns (x: T)
    requires s != {}
    ensures x in s
  {
    x :| x in s;
  }

  class BddCoordNode {
    const useSim: bool
    var contexts: map<Ctx, Context>
    var policyTopics: Registry
    var observationTopics: Registry
    var simHandles: Handles
    var tfHandles: Handles
    var started: nat                   // polling handles started
    var cancelled: set<int>            // calls of `cancel` on polling handles
    var goalCancels: multiset<Ctx>     // calls of `cancel_goal_async`
    var failures: multiset<Ctx>        // failures published by reset handlers
    var endEvents: multiset<Ctx>       // end events published
    var rejections: multiset<Ctx>      // failed results recorded for rejected goals
    var tasks: seq<set<Ctx>>           // reset handlers handed to the executor
    var pending: seq<K.Variation>
    var setupActive: bool
    ghost var coord: K.Coord           // the scheduler's state that the fields are part of

    ghost function AllTables(): Tables
      reads this
    {
      Tables(contexts, policyTopics, observationTopics, simHandles, tfHandles, cancelled)
    }

    ghost predicate Valid()
      reads this
    {
      && coord.life.useSim == useSim
      && AllTables() == TablesOf(coord.life)
      && goalCancels == coord.life.cancels && failures == coord.life.reports && tasks == coord.life.deferred
      && started == coord.life.started
      && endEvents == coord.life.endEvents && rejections == coord.life.rejections
      && pending == coord.pending && setupActive == coord.setupActive
    }

    constructor (useSim: bool)
      ensures Valid() && coord == K.Initial(useSim)
    {
      this.useSim := useSim;
      contexts, policyTopics, observationTopics, simHandles, tfHandles := map[], map[], map[], map[], map[];
      started, cancelled, goalCancels, failures := 0, {}, multiset{}, multiset{};
      endEvents, rejections := multiset{}, multiset{};
      tasks, pending, setupActive := [], [], false;
      coord := K.Initial(useSim);
    }

    // ---------- scheduling ----------

    method ScheduleNextScenario() returns (launched: bool)
      requires Valid() && coord.wakers > 0
      modifies this`setupActive, this`coord
      ensures Valid() && coord == K.RequestNext(old(coord), K.Schedule)
      ensures launched <==> setupActive && !old(setupActive)
    {
      coord := K.RequestNext(coord, K.Schedule);
      if setupActive || contexts != map[] || pending == [] {
        return false;
      }
      setupActive := true;
      return true;
    }

    // ---------- retirement ----------

    method DropPolicies(c: Ctx)
      modifies this`policyTopics
      ensures policyTopics == RegWithout(old(policyTopics), {c})
    {
      var todo := policyTopics.Keys;
      while todo != {}
        invariant todo <= policyTopics.Keys == old(policyTopics).Keys
        invariant forall t | t in policyTopics ::
            policyTopics[t] == if t in todo then old(policyTopics)[t] else old(policyTopics)[t] - {c}
      {
        var t :| t in todo;
        if c in policyTopics[t] {
          policyTopics := policyTopics[t := policyTopics[t] - {c}];
        }
        todo := todo - {t};
      }
    }

    method DropObservations(c: Ctx)
      modifies this`observationTopics
      ensures observationTopics == RegWithout(old(observationTopics), {c})
    {
      var todo := observationTopics.Keys;
      while todo != {}
        invariant todo <= observationTopics.Keys == old(observationTopics).Keys
        invariant forall t | t in observationTopics ::
            observationTopics[t] == if t in todo then old(observationTopics)[t] else old(observationTopics)[t] - {c}
      {
        var t :| t in todo;
        observationTopics := observationTopics[t := observationTopics[t] - {c}];
        todo := todo - {t};
      }
    }

    method DropSimHandles(c: Ctx)
      modifies this`simHandles, this`cancelled
      ensures simHandles == HandlesWithout(old(simHandles), {c})
      ensures cancelled == old(cancelled) + HandlesOf(old(simHandles), {c})
    {
      ghost var hs := simHandles;
      var todo := simHandles.Keys;
      while todo != {}
        invariant todo <= simHandles.Keys <= hs.Keys
        invariant forall k | k in hs :: k in simHandles <==> k in todo || k.0 != c
        invariant forall k | k in simHandles :: simHandles[k] == hs[k]
        invariant cancelled == old(cancelled) + set k | k in hs && k !in todo && k.0 == c :: hs[k]
      {
        var k :| k in todo;
        if k.0 == c {
          cancelled := cancelled + {simHandles[k]};
          simHandles := simHandles - {k};
        }
        todo := todo - {k};
      }
    }

    method DropTfHandles(c: Ctx)
      modifies this`tfHandles, this`cancelled
      ensures tfHandles == HandlesWithout(old(tfHandles), {c})
      ensures cancelled == old(cancelled) + HandlesOf(old(tfHandles), {c})
    {
      ghost var hs := tfHandles;
      var todo := tfHandles.Keys;
      while todo != {}
        invariant todo <= tfHandles.Keys <= hs.Keys
        invariant forall k | k in hs :: k in tfHandles <==> k in todo || k.0 != c
        invariant forall k | k in tfHandles :: tfHandles[k] == hs[k]
        invariant cancelled == old(cancelled) + set k | k in hs && k !in todo && k.0 == c :: hs[k]
      {
        var k :| k in todo;
        if k.0 == c {
          cancelled := cancelled + {tfHandles[k]};
          tfHandles := tfHandles - {k};
        }
        todo := todo - {k};
      }
    }

    method RemoveContextTopicReg(c: Ctx)
      modifies this`policyTopics, this`observationTopics, this`simHandles, this`tfHandles, this`cancelled
      ensures AllTables() == Unlisted(old(AllTables()), {c})
    {
      DropPolicies(c);
      DropObservations(c);
      DropSimHandles(c);
      DropTfHandles(c);
    }

    /** Unregister a context and drop it, as the timer and the reset handler do for each they retire. */
    method Remove(c: Ctx)
      modifies this`contexts, this`policyTopics, this`observationTopics, this`simHandles, this`tfHandles, this`cancelled
      ensures AllTables() == RetiredTables(old(AllTables()), {c})
    {
      RemoveContextTopicReg(c);
      contexts := contexts - {c};
    }

    /** Remove the contexts one by one, in any order. */
    method RemoveFinished(finished: set<Ctx>)
      modifies this`contexts, this`policyTopics, this`observationTopics, this`simHandles, this`tfHandles, this`cancelled
      ensures AllTables() == RetiredTables(old(AllTables()), finished)
    {
      var todo := finished;
      RetiredNone(AllTables());
      assert finished - todo == {};
      while todo != {}
        invariant todo <= finished
        invariant AllTables() == RetiredTables(old(AllTables()), finished - todo)
      {
        var c := Pick(todo);
        RetiredTwice(old(AllTables()), finished - todo, {c});
        assert finished - (todo - {c}) == finished - todo + {c};
        Remove(c);
        todo := todo - {c};
      }
      assert finished - todo == finished;
    }

    // ---------- the status timer ----------

    /** One context the timer looks at: its end event when that is due, its status, and whether it is over. */
    method SurveyOne(c: Ctx, now: int) returns (status: Option<Manager>, finished: bool)
      requires c in contexts
      modifies this`contexts, this`endEvents
      ensures var x := old(contexts)[c];
              var due := !FromTheFuture(useSim, now, x.mgr) && EndIsDue(now, x);
              && contexts == (if due then old(contexts)[c := old(contexts)[c].(endSent := true)] else old(contexts))
              && endEvents == old(endEvents) + if due then multiset{c} else multiset{}
      ensures status == if FromTheFuture(useSim, now, old(contexts)[c].mgr) then None else Some(old(contexts)[c].mgr)
      ensures finished <==> !FromTheFuture(useSim, now, old(contexts)[c].mgr) && IsOver(now, old(contexts)[c].mgr)
    {
      var m := contexts[c].mgr;
      if useSim && m.start.Some? && now < m.start.value {
        return None, false;
      }
      if !contexts[c].endSent && m.deadline.Some? && now >= m.deadline.value {
        endEvents := endEvents + multiset{c};
        contexts := contexts[c := contexts[c].(endSent := true)];
      }
      status := Some(m);
      finished := m.end.Some? && now >= (if m.policyEnds == [] then m.end.value else MaxOf(m.policyEnds));
    }

    method SurveyNext(c: Ctx, now: int, statuses: map<Ctx, Manager>, finished: set<Ctx>,
                      ghost before: map<Ctx, Context>, ghost todo: set<Ctx>)
      returns (statuses': map<Ctx, Manager>, finished': set<Ctx>)
      requires c in todo && c in before && Surveyed(useSim, now, before, todo, contexts, statuses, finished)
      modifies this`contexts, this`endEvents
      ensures Surveyed(useSim, now, before, todo - {c}, contexts, statuses', finished')
      ensures endEvents == old(endEvents) + if c in EndingOf(useSim, now, before) then multiset{c} else multiset{}
    {
      SurveyMore(useSim, now, before, todo, c, contexts, statuses, finished);
      EndingIs(useSim, now, before, c);
      DueIs(useSim, now, before[c].mgr);
      var status, over := SurveyOne(c, now);
      statuses' := if status.Some? then statuses[c := status.value] else statuses;
      finished' := if over then finished + {c} else finished;
    }

    method CollectFinished(now: int) returns (statuses: map<Ctx, Manager>, finished: set<Ctx>)
      modifies this`contexts, this`endEvents
      ensures var es := EndingOf(useSim, now, old(contexts));
              contexts == MarkEnded(old(contexts), es) && endEvents == old(endEvents) + multiset(es)
      ensures statuses == Statuses(useSim, now, old(contexts))
      ensures finished == DueOf(useSim, now, old(contexts))
    {
      statuses, finished := map[], {};
      ghost var before, es := contexts, EndingOf(useSim, now, contexts);
      var todo := contexts.Keys;
      SurveyBegins(useSim, now, before);
      while todo != {}
        invariant todo <= before.Keys
        invariant Surveyed(useSim, now, before, todo, contexts, statuses, finished)
        invariant endEvents == old(endEvents) + multiset(es - todo)
      {
        var c := Pick(todo);
        OneLess(es, todo, c);
        statuses, finished := SurveyNext(c, now, statuses, finished, before, todo);
        todo := todo - {c};
      }
      SurveyEnds(useSim, now, before, contexts, statuses, finished);
    }

    method SurveyAndRemove(now: int) returns (statuses: map<Ctx, Manager>)
      modifies this`contexts, this`policyTopics, this`observationTopics, this`simHandles, this`tfHandles, this`cancelled
      modifies this`endEvents
      ensures statuses == Statuses(useSim, now, old(contexts))
      ensures var es := EndingOf(useSim, now, old(contexts));
              && AllTables() == RetiredTables(old(AllTables()).(contexts := MarkEnded(old(contexts), es)),
                                              DueOf(useSim, now, old(contexts)))
              && endEvents == old(endEvents) + multiset(es)
    {
      var finished;
      statuses, finished := CollectFinished(now);
      RemoveFinished(finished);
    }

    /** Collect the statuses to publish and retire what is over. */
    method RetireFinished(now: int, ghost s': K.Coord) returns (statuses: map<Ctx, Manager>)
      requires Valid() && TimerStep(coord, s', now)
      modifies this`contexts, this`policyTopics, this`observationTopics, this`simHandles, this`tfHandles, this`cancelled
      modifies this`endEvents, this`coord
      ensures Valid() && coord == s'
      ensures statuses == Statuses(useSim, now, old(contexts))
    {
      statuses := SurveyAndRemove(now);
      coord := s';
    }

    /** The timer's region under the lock; no contexts, no status and no wake-up. */
    method StatusRegion(now: int) returns (status: Option<map<Ctx, Manager>>)
      requires Valid()
      modifies this
      ensures Valid() && coord == K.WorldNext(old(coord), K.StatusTimer(now))
      ensures status == if old(contexts) == map[] then None else Some(Statuses(useSim, now, old(contexts)))
    {
      if contexts == map[] {
        return None;
      }
      TimerSteps(coord, now);
      var statuses := RetireFinished(now, K.WorldNext(coord, K.StatusTimer(now)));
      return Some(statuses);
    }

    method StatusTimerCallback(now: int) returns (status: Option<map<Ctx, Manager>>, launched: bool)
      requires Valid()
      modifies this
      ensures Valid() && (status.None? ==> !launched && coord == old(coord))
      ensures status.None? <==> old(contexts) == map[]
      ensures status.Some? ==> forall c :: c in old(contexts) ==>
                var m := old(contexts)[c].mgr;
                && (c in status.value <==> !FromTheFuture(useSim, now, m)) && (c in status.value ==> status.value[c] == m)
                && (c in contexts <==> FromTheFuture(useSim, now, m) || !IsOver(now, m))
      ensures status.Some? ==> status.value.Keys <= old(contexts).Keys && contexts.Keys <= old(contexts).Keys
      ensures var s := K.WorldNext(old(coord), K.StatusTimer(now));
              status.Some? ==> s.wakers > 0 && coord == K.RequestNext(s, K.Schedule)
    {
      launched := false;
      if contexts != map[] {
        TimerLeaves(coord, now);
      }
      status := StatusRegion(now);
      if status.Some? {
        launched := ScheduleNextScenario();
      }
    }

    // ---------- clock resets ----------

    method CollectStarted() returns (ids: set<Ctx>)
      ensures ids == StartedSet(contexts)
    {
      ids := {};
      var todo := contexts.Keys;
      while todo != {}
        invariant todo <= contexts.Keys
        invariant ids == StartedSet(contexts) - todo
      {
        var c := Pick(todo);
        todo := todo - {c};
        if contexts[c].mgr.start.Some? {
          ids := ids + {c};
        }
      }
    }

    /** Hand the contexts that have started to a deferred handler, if there are any. */
    method OnClockReset()
      requires Valid()
      modifies this`tasks, this`coord
      ensures Valid() && coord == old(coord).(life := Capture(old(coord.life)))
      ensures if exists c :: LiveAndStarted(old(coord.life), c) then
                |tasks| == |old(tasks)| + 1 && tasks[..|old(tasks)|] == old(tasks)
                && forall c :: c in tasks[|old(tasks)|] <==> c in contexts && contexts[c].mgr.start.Some?
              else tasks == old(tasks)
    {
      ResetExactly(coord.life);
      var ids := CollectStarted();
      if ids != {} {
        tasks := tasks + [ids];
      }
      coord := coord.(life := Capture(coord.life));
    }

    /** One captured context: skipped when it is gone or has not started, else failed and retired. */
    method FailOne(c: Ctx)
      modifies this`contexts, this`policyTopics, this`observationTopics, this`simHandles, this`tfHandles, this`cancelled
      modifies this`goalCancels, this`failures
      ensures var rs := FailingOf(old(contexts), {c});
              && AllTables() == RetiredTables(old(AllTables()), rs)
              && goalCancels == old(goalCancels) + multiset(Holding(old(contexts), rs))
              && failures == old(failures) + multiset(rs)
    {
      if c !in contexts || contexts[c].mgr.start.None? {
        RetiredNone(AllTables());
        assert FailingOf(contexts, {c}) == {};
        return;
      }
      assert FailingOf(contexts, {c}) == {c};
      failures := failures + multiset{c};
      if contexts[c].goalHandle {
        goalCancels := goalCancels + multiset{c};
      }
      assert Holding(contexts, {c}) == if contexts[c].goalHandle then {c} else {};
      Remove(c);
    }

    /** Of the contexts captured, `done` have been failed or skipped. */
    ghost predicate HasFailed(t: Tables, cancels: multiset<Ctx>, failed: multiset<Ctx>, done: set<Ctx>)
      reads this
    {
      var rs := FailingOf(t.contexts, done);
      && AllTables() == RetiredTables(t, rs)
      && goalCancels == cancels + multiset(Holding(t.contexts, rs))
      && failures == failed + multiset(rs)
    }

    method FailNext(c: Ctx, ghost t: Tables, ghost cancels: multiset<Ctx>, ghost failed: multiset<Ctx>, ghost done: set<Ctx>)
      requires c !in done && HasFailed(t, cancels, failed, done)
      modifies this`contexts, this`policyTopics, this`observationTopics, this`simHandles, this`tfHandles, this`cancelled
      modifies this`goalCancels, this`failures
      ensures HasFailed(t, cancels, failed, done + {c})
    {
      ghost var rs := FailingOf(t.contexts, done);
      assert contexts == t.contexts - rs;
      FailingOneMore(t.contexts, done, c);
      RetiredTwice(t, rs, FailingOf(contexts, {c}));
      FailOne(c);
    }

    /** Fail the captured contexts that are still there and have started. */
    method FailCaptured(ids: set<Ctx>)
      modifies this`contexts, this`policyTopics, this`observationTopics, this`simHandles, this`tfHandles, this`cancelled
      modifies this`goalCancels, this`failures
      ensures var rs := FailingOf(old(contexts), ids);
              && AllTables() == RetiredTables(old(AllTables()), rs)
              && goalCancels == old(goalCancels) + multiset(Holding(old(contexts), rs))
              && failures == old(failures) + multiset(rs)
    {
      ghost var t := AllTables();
      var todo := ids;
      RetiredNone(t);
      assert FailingOf(t.contexts, ids - todo) == {};
      while todo != {}
        invariant todo <= ids && HasFailed(t, old(goalCancels), old(failures), ids - todo)
      {
        var c := Pick(todo);
        assert ids - (todo - {c}) == ids - todo + {c};
        FailNext(c, t, old(goalCancels), old(failures), ids - todo);
        todo := todo - {c};
      }
      assert ids - todo == ids;
    }

    /** Drop the queue if a context was failed. */
    method FailAndClear(ids: set<Ctx>) returns (raised: bool)
      modifies this`contexts, this`policyTopics, this`observationTopics, this`simHandles, this`tfHandles, this`cancelled
      modifies this`goalCancels, this`failures, this`pending
      ensures var rs := FailingOf(old(contexts), ids);
              && AllTables() == RetiredTables(old(AllTables()), rs)
              && goalCancels == old(goalCancels) + multiset(Holding(old(contexts), rs))
              && failures == old(failures) + multiset(rs)
              && (raised <==> rs != {})
              && pending == if raised then [] else old(pending)
    {
      var before := |failures|;
      FailCaptured(ids);
      raised := |failures| > before;
      if raised {
        pending := [];
      }
    }

    /** The handler's region under the lock: whether it raises, having failed a context. */
    method ResetRegion(i: nat, ghost s': K.Coord) returns (raised: bool)
      requires Valid() && i < |tasks| && ResetStep(coord, s', i)
      modifies this
      ensures Valid() && coord == s'
      ensures raised <==> FailingOf(old(contexts), old(tasks)[i]) != {}
    {
      raised := FailAndClear(tasks[i]);
      tasks := tasks[..i] + tasks[i + 1..];
      coord := s';
    }

    /** The executor runs the `i`-th deferred handler. */
    method HandleClockReset(i: nat) returns (raised: bool)
      requires Valid() && i < |tasks|
      modifies this
      ensures Valid() && coord == K.WorldNext(old(coord), K.ResetHandler(i))
      ensures raised <==> SomeFail(old(coord.life), old(tasks)[i])
      ensures raised ==> pending == []
    {
      FailingIs(coord.life, tasks[i]);
      ResetSteps(coord, i);
      raised := ResetRegion(i, K.WorldNext(coord, K.ResetHandler(i)));
    }

    // ---------- goal responses ----------

    method ResponseRegion(c: Ctx, accepted: bool) returns (awaitsResult: bool)
      modifies this`contexts, this`goalCancels, this`rejections, this`endEvents
      ensures awaitsResult <==> c in old(contexts) && accepted
      ensures contexts == if awaitsResult then old(contexts)[c := old(contexts)[c].(goalHandle := true)] else old(contexts)
      ensures var late, rejected := c !in old(contexts) && accepted, c in old(contexts) && !accepted;
              && goalCancels == old(goalCancels) + (if late then multiset{c} else multiset{})
              && rejections == old(rejections) + (if rejected then multiset{c} else multiset{})
              && endEvents == old(endEvents) + (if rejected then multiset{c} else multiset{})
    {
      if c !in contexts {
        if accepted {
          goalCancels := goalCancels + multiset{c};
        }
        return false;
      }
      if !accepted {
        rejections := rejections + multiset{c};
        endEvents := endEvents + multiset{c};
        return false;
      }
      contexts := contexts[c := contexts[c].(goalHandle := true)];
      return true;
    }

    method ResponseTo(c: Ctx, accepted: bool, ghost s': K.Coord) returns (awaitsResult: bool)
      requires Valid() && ResponseStep(coord, s', c, accepted)
      modifies this`contexts, this`goalCancels, this`rejections, this`endEvents, this`coord
      ensures Valid() && coord == s'
      ensures awaitsResult <==> c in old(contexts) && accepted
    {
      awaitsResult := ResponseRegion(c, accepted);
      coord := s';
    }

    method BhvGoalRespCb(c: Ctx, accepted: bool) returns (awaitsResult: bool)
      requires Valid() && K.WorldEnabled(coord, K.Listens(Response(c, accepted)))
      modifies this
      ensures Valid() && coord == K.WorldNext(old(coord), K.Listens(Response(c, accepted)))
      ensures awaitsResult <==> c in old(contexts) && accepted
    {
      ResponseSteps(coord, c, accepted);
      awaitsResult := ResponseTo(c, accepted, K.WorldNext(coord, K.Listens(Response(c, accepted))));
    }

    // ---------- start requests ----------

    /** A start request's check under the lock. */
    method AcceptStart(ghost variations: seq<K.Variation>) returns (accepted: bool)
      requires Valid()
      modifies this`coord
      ensures Valid() && coord == K.RequestNext(old(coord), K.Request(variations))
      ensures accepted <==> !setupActive && pending == [] && contexts == map[]
    {
      coord := K.RequestNext(coord, K.Request(variations));
      accepted := !(setupActive || pending != [] || contexts != map[]);
    }

    /** The `i`-th accepted request appends its next variation, in a region of its own. */
    method Enqueue(v: K.Variation, ghost i: nat)
      requires Valid() && K.RequestEnabled(coord, K.Append(i)) && v == coord.starters[i][0]
      modifies this`pending, this`coord
      ensures Valid() && coord == K.RequestNext(old(coord), K.Append(i))
    {
      pending := pending + [v];
      coord := K.RequestNext(coord, K.Append(i));
    }

    /** The `i`-th accepted request has nothing left to append and schedules. */
    method FinishStart(ghost i: nat) returns (launched: bool)
      requires Valid() && K.RequestEnabled(coord, K.Finished(i))
      modifies this`setupActive, this`coord
      ensures Valid() && coord == K.RequestNext(K.RequestNext(old(coord), K.Finished(i)), K.Schedule)
    {
      coord := K.RequestNext(coord, K.Finished(i));
      launched := ScheduleNextScenario();
    }

    /** A start request that nothing interrupts. */
    method StartTestCb(variations: seq<K.Variation>) returns (accepted: bool)
      requires Valid()
      modifies this`pending, this`setupActive, this`coord
      ensures Valid()
      ensures accepted <==> !old(setupActive) && old(pending) == [] && old(contexts) == map[]
      ensures !accepted ==> coord == old(coord)
      ensures accepted ==> pending == variations && setupActive == (variations != [])
      ensures accepted ==> coord.enqueued == old(coord).enqueued + variations && coord.outcomes == old(coord).outcomes
    {
      ghost var s0, n := coord, |coord.starters|;
      accepted := AcceptStart(variations);
      if !accepted {
        return;
      }
      var i := 0;
      while i < |variations|
        invariant 0 <= i <= |variations| && Valid()
        invariant coord == Requested(s0, variations, i)
      {
        RequestedMore(s0, variations, i);
        Enqueue(variations[i], n);
        i := i + 1;
      }
      var _ := FinishStart(n);
    }

    // ---------- the setup task's regions ----------

    method TakeNext() returns (next: Option<K.Variation>)
      requires Valid() && coord.pc.LoopTop?
      modifies this`pending, this`coord
      ensures Valid() && coord == K.SetupNext(old(coord), K.Pop)
      ensures match next case Some(v) => coord.pc == K.Popped(v) case None => coord.pc == K.Leaving
    {
      coord := K.SetupNext(coord, K.Pop);
      if pending == [] || contexts != map[] {
        return None;
      }
      next := Some(pending[0]);
      pending := pending[1..];
    }

    method FailRegion(c: Ctx, ghost s': K.Coord)
      requires Valid() && TablesStep(coord, s', Unlisted(TablesOf(coord.life), {c}), coord.life.started)
      modifies this`policyTopics, this`observationTopics, this`simHandles, this`tfHandles, this`cancelled, this`coord
      ensures Valid() && coord == s'
    {
      RemoveContextTopicReg(c);
      coord := s';
    }

    method FailSetup(c: Ctx)
      requires Valid() && coord.pc.Failed? && coord.pc.ctx == c && K.SetupEnabled(coord, K.FailCleanup)
      modifies this
      ensures Valid() && coord == K.SetupNext(old(coord), K.FailCleanup)
    {
      FailSteps(coord, c);
      FailRegion(c, K.SetupNext(coord, K.FailCleanup));
    }

    method InsertContext(c: Ctx)
      requires Valid() && coord.pc.Inserting? && coord.pc.ctx == c && K.SetupEnabled(coord, K.InsertContext)
      modifies this`contexts, this`coord
      ensures Valid() && coord == K.SetupNext(old(coord), K.InsertContext)
    {
      coord := K.SetupNext(coord, K.InsertContext);
      contexts := contexts[c := NEW_CONTEXT];
    }

    method FilePolicy(c: Ctx, topic: Topic, uri: Uri)
      modifies this`policyTopics
      ensures policyTopics == RegisterIn(old(policyTopics), topic, c, uri)
    {
      if topic !in policyTopics {
        policyTopics := policyTopics[topic := map[]];
      }
      ghost var entry := Entry(old(policyTopics), topic);
      assert policyTopics == old(policyTopics)[topic := entry];
      if c !in policyTopics[topic] {
        policyTopics := policyTopics[topic := policyTopics[topic][c := {}]];
      }
      ghost var uris := if c in entry then entry[c] else {};
      assert entry[c := uris][c := uris + {uri}] == entry[c := uris + {uri}];
      assert policyTopics[topic] == entry[c := uris];
      policyTopics := policyTopics[topic := policyTopics[topic][c := policyTopics[topic][c] + {uri}]];
      assert policyTopics[topic] == entry[c := uris + {uri}];
    }

    /** Register a policy of the context being created under its topic. */
    method CreateSubscription(c: Ctx, topic: Topic, uri: Uri)
      requires Valid() && K.SetupEnabled(coord, K.Register(RegisterPolicy(c, topic, uri)))
      modifies this`policyTopics, this`coord
      ensures Valid() && coord == K.SetupNext(old(coord), K.Register(RegisterPolicy(c, topic, uri)))
    {
      coord := K.SetupNext(coord, K.Register(RegisterPolicy(c, topic, uri)));
      FilePolicy(c, topic, uri);
    }

    /** The same for an observation provider. */
    method CreateObservationSubscription(c: Ctx, topic: Topic, uri: Uri)
      requires Valid() && K.SetupEnabled(coord, K.Register(RegisterObservation(c, topic, uri)))
      modifies this`observationTopics, this`coord
      ensures Valid() && coord == K.SetupNext(old(coord), K.Register(RegisterObservation(c, topic, uri)))
    {
      coord := K.SetupNext(coord, K.Register(RegisterObservation(c, topic, uri)));
      var providers := if topic in observationTopics then observationTopics[topic] else map[];
      var uris := if c in providers then providers[c] else {};
      observationTopics := observationTopics[topic := providers[c := uris + {uri}]];
    }

    /** Start polling for one provider of a context and file the handle. */
    method StartSimulationPolling(c: Ctx, uri: Uri)
      requires Valid() && K.SetupEnabled(coord, K.Activate(ActivateSim(c, uri)))
      modifies this`simHandles, this`started, this`coord
      ensures Valid() && coord == K.SetupNext(old(coord), K.Activate(ActivateSim(c, uri)))
    {
      SimPollingSteps(coord, c, uri);
      simHandles := simHandles[(c, uri) := started];
      started := started + 1;
      coord := K.SetupNext(coord, K.Activate(ActivateSim(c, uri)));
    }

    method StartTransformPolling(c: Ctx, uri: Uri)
      requires Valid() && K.SetupEnabled(coord, K.Activate(ActivateTf(c, uri)))
      modifies this`tfHandles, this`started, this`coord
      ensures Valid() && coord == K.SetupNext(old(coord), K.Activate(ActivateTf(c, uri)))
    {
      TfPollingSteps(coord, c, uri);
      tfHandles := tfHandles[(c, uri) := started];
      started := started + 1;
      coord := K.SetupNext(coord, K.Activate(ActivateTf(c, uri)));
    }

    method LeaveSetup() returns (launched: bool)
      requires Valid() && coord.pc.Leaving?
      modifies this`setupActive, this`coord
      ensures Valid() && coord == K.RequestNext(K.SetupNext(old(coord), K.Leave), K.Schedule)
      ensures launched <==> setupActive
    {
      setupActive := false;
      coord := K.SetupNext(coord, K.Leave);
      launched := ScheduleNextScenario();
    }
  }
}
