/** From the status messages to the screen: what the browser shows as discarded, and what is really active. */
module Display {
  import opened StatusMessages
  import opened History
  import opened HistoryLaws
  import opened ActiveSets
  import opened Reporting
  import opened Fanout
  import opened TimelineView
  import opened ScenarioViews
  import opened Rendering
  import opened ViewLaws
  import Identity

  /** What a client holds, materialized, once it has consumed its queue. */
  function Held(q: QueueState): seq<Shown> {
    Materialize(Fresh(Replay(BLANK, q.All()).records))
  }

  // ---------- the flags ----------

  lemma TargetsOfFresh(rs: seq<Record>, id: RecordId)
    ensures id in Targets(Fresh(rs)) <==> IsDiscarded(rs, id)
  {
    var xs := Fresh(rs);
    if IsDiscarded(rs, id) {
      var i :| 0 <= i < |rs| && rs[i].body.Discarded? && rs[i].body.target == id;
      assert xs[i] in xs;
    }
    if id in Targets(xs) {
      var x :| x in xs && x.record.body.Discarded? && x.record.body.target == id;
      var i :| 0 <= i < |xs| && xs[i] == x;
      assert rs[i].body.Discarded?;
    }
  }

  /** In every run, a drained client flags exactly the records that the store has discarded, and every assertion it does
      not flag is active in the store. */
  lemma FlagsExactly<C>(states: seq<System<C>>, events: seq<Action<C>>, n: nat, client: C)
    requires IsRun(states, events) && n < |states| && client in states[n].queues
    ensures var core, held := states[n].core, Held(states[n].queues[client]);
            && (forall i :: 0 <= i < |core.records| && !core.records[i].body.Discarded? ==>
                  forall flag :: Shown(core.records[i], flag) in held <==>
                    flag == IsDiscarded(core.records, core.records[i].Id()))
            && forall i | 0 <= i < |core.records| && IsAssertion(core.records[i].body) ::
                 Shown(core.records[i], false) in held ==> IsActive(core, core.records[i].Id())
  {
    ClientsConverge(states, events, n);
    var core := states[n].core;
    var q := states[n].queues[client];
    assert Converged(q, core.records, states[n].status);
    var xs := Fresh(core.records);
    assert DistinctSequences(xs);
    MaterializeExact(xs);
    forall i, flag | 0 <= i < |core.records| && !core.records[i].body.Discarded?
      ensures Shown(core.records[i], flag) in Held(q) <==> flag == IsDiscarded(core.records, core.records[i].Id())
    {
      assert xs[i] in xs;
      TargetsOfFresh(core.records, core.records[i].Id());
    }
    NothingLost(core);
  }

  /** Exactly when an assertion is flagged as discarded, exactly when it is active, and so exactly when it is flagged
      although it is active: told from the messages ingested so far, which may be any. */
  lemma FlagsFromMessages<C>(states: seq<System<C>>, events: seq<Action<C>>, n: nat, client: C, i: nat)
    requires IsRun(states, events) && n < |states| && client in states[n].queues
    requires i < |states[n].core.records| && IsAssertion(states[n].core.records[i].body)
    ensures var core, held := states[n].core, Held(states[n].queues[client]);
            var key, entries := KeyOf(core.records[i].body), AllChunks(Messages(events[..n]));
            && (Shown(core.records[i], true) in held <==> RetractedEver(entries, key))
            && (IsDiscarded(core.records, core.records[i].Id()) <==> RetractedEver(entries, key))
            && (IsActive(core, core.records[i].Id()) <==> Stands(EMPTY, entries, key))
  {
    var core := states[n].core;
    var key := KeyOf(core.records[i].body);
    FlagsExactly(states, events, n, client);
    ClientsConverge(states, events, n);
    RunReaches(states, events, n);
    RecordKey(core, i);
    HistoryExactly(Messages(events[..n]), core, key);
  }

  // ---------- the interval of a scenario, on the store's records ----------

  /** The records of the context, in order, without the discards. */
  function Stored(records: seq<Record>, ctx: string): seq<Record> {
    if records == [] then []
    else
      var n := |records| - 1;
      Stored(records[..n], ctx)
      + if records[n].body.ctx == ctx && !records[n].body.Discarded? then [records[n]] else []
  }

  lemma {:induction false} StoredAre(records: seq<Record>, ctx: string)
    ensures forall r :: r in Stored(records, ctx) <==> r in records && r.body.ctx == ctx && !r.body.Discarded?
  {
    if records != [] {
      StoredAre(records[..|records| - 1], ctx);
      assert records == records[..|records| - 1] + [records[|records| - 1]];
    }
  }

  ghost predicate SameRecords(xs: seq<Shown>, ys: seq<Shown>) {
    |xs| == |ys| && forall i :: 0 <= i < |xs| ==> xs[i].record == ys[i].record
  }

  lemma SameBodies(xs: seq<Shown>, rs: seq<Record>)
    requires SameRecords(xs, Fresh(rs))
    ensures BodiesOf(xs) == Bodies(rs)
  {
    assert forall i :: 0 <= i < |rs| ==> Fresh(rs)[i].record == rs[i];
  }

  lemma FlaggedFreshSnoc(records: seq<Record>, targets: set<RecordId>)
    requires records != []
    ensures var n := |records| - 1;
            Flagged(Fresh(records), targets)
            == Flagged(Fresh(records[..n]), targets)
               + if records[n].body.Discarded? then [] else [Flag(Shown(records[n], false), targets)]
  {
    assert Fresh(records)[..|records| - 1] == Fresh(records[..|records| - 1]);
  }

  /** Flagging leaves a numbered history in order and drops the discards. */
  lemma {:induction false} FlaggedFresh(records: seq<Record>, targets: set<RecordId>)
    requires Numbered(records)
    ensures IsMaterialized(Flagged(Fresh(records), targets))
    ensures forall x :: x in Flagged(Fresh(records), targets) ==> x.record.sequence <= |records|
  {
    if records != [] {
      var n := |records| - 1;
      FlaggedFresh(records[..n], targets);
      FlaggedFreshSnoc(records, targets);
      if !records[n].body.Discarded? {
        MaterializedSnoc(Flagged(Fresh(records[..n]), targets), Flag(Shown(records[n], false), targets));
      }
    }
  }

  lemma HeldInOrder(records: seq<Record>)
    requires Numbered(records)
    ensures Materialize(Fresh(records)) == Flagged(Fresh(records), Targets(Fresh(records)))
    ensures IsMaterialized(Materialize(Fresh(records)))
  {
    FlaggedFresh(records, Targets(Fresh(records)));
    SortSorted(Flagged(Fresh(records), Targets(Fresh(records))));
  }

  lemma OfSnoc(xs: seq<Shown>, x: Shown, ctx: string)
    ensures Of(xs + [x], ctx) == Of(xs, ctx) + if x.record.body.ctx == ctx then [x] else []
  {
    assert (xs + [x])[..|xs + [x]| - 1] == xs;
  }

  /** The scenario's records are the store's. */
  lemma {:induction false} GroupIsStored(records: seq<Record>, targets: set<RecordId>, ctx: string)
    ensures SameRecords(Of(Flagged(Fresh(records), targets), ctx), Fresh(Stored(records, ctx)))
  {
    if records != [] {
      var n := |records| - 1;
      GroupIsStored(records[..n], targets, ctx);
      FlaggedFreshSnoc(records, targets);
      var front := Flagged(Fresh(records[..n]), targets);
      if records[n].body.Discarded? {
        assert front + [] == front;
      } else {
        OfSnoc(front, Flag(Shown(records[n], false), targets), ctx);
      }
    }
  }

  lemma BodiesAreStored(records: seq<Record>, ctx: string)
    requires Numbered(records)
    ensures BodiesOf(Of(Materialize(Fresh(records)), ctx)) == Bodies(Stored(records, ctx))
  {
    HeldInOrder(records);
    GroupIsStored(records, Targets(Fresh(records)), ctx);
    SameBodies(Of(Materialize(Fresh(records)), ctx), Stored(records, ctx));
  }

  /** So is its interval. */
  lemma IntervalIsStored(records: seq<Record>, ctx: string, current: Stamp, b: Body)
    requires Numbered(records) && Stored(records, ctx) != []
    ensures var rs := Of(Materialize(Fresh(records)), ctx);
            && rs != []
            && (StartOf(rs) <= TimeOf(b) <= EndOf(rs, Some(current))
                <==> InInterval(Bodies(Stored(records, ctx)), Some(current), b))
  {
    var rs := Of(Materialize(Fresh(records)), ctx);
    BodiesAreStored(records, ctx);
    assert |rs| == |Stored(records, ctx)|;
    InIntervalIs(rs, Some(current), b);
  }

  lemma HeldOf(records: seq<Record>, x: Shown)
    requires Numbered(records)
    ensures x in Materialize(Fresh(records)) <==>
            x.record in records && !x.record.body.Discarded? && x.discarded == IsDiscarded(records, x.record.Id())
  {
    var xs := Fresh(records);
    MaterializeExact(xs);
    if x.record in records {
      var i :| 0 <= i < |records| && records[i] == x.record;
      assert xs[i] in xs;
      TargetsOfFresh(records, x.record.Id());
      assert x == Shown(xs[i].record, x.discarded);
    }
    if x in Materialize(xs) {
      var y :| y in xs && y.record == x.record;
      assert y.record in records;
    }
  }

  // ---------- the lanes of a drained client ----------

  /** What the lanes of a context are built from. */
  function Rendered(q: QueueState, ctx: string): seq<Shown>
    requires Of(Held(q), ctx) != []
  {
    Materialize(VisibleOf(Held(q), ctx, Current(Replay(BLANK, q.All()).latest)))
  }

  /** A stored record of the context that is not a discard, flagged as the store has it. */
  ghost predicate IsStored(records: seq<Record>, ctx: string, x: Shown) {
    && x.record in records && x.record.body.ctx == ctx && !x.record.body.Discarded?
    && x.discarded == IsDiscarded(records, x.record.Id())
  }

  /** Its stamp lies inside the interval that the context's records span. */
  ghost predicate IsVisible(records: seq<Record>, ctx: string, current: Stamp, b: Body) {
    Stored(records, ctx) != [] && InInterval(Bodies(Stored(records, ctx)), Some(current), b)
  }

  /** On any numbered history. */
  lemma VisibleExactly(records: seq<Record>, ctx: string, current: Stamp, x: Shown)
    requires Numbered(records) && Stored(records, ctx) != []
    ensures var xs := Materialize(Fresh(records));
            && Of(xs, ctx) != []
            && IsMaterialized(VisibleOf(xs, ctx, Some(current)))
            && Materialize(VisibleOf(xs, ctx, Some(current))) == VisibleOf(xs, ctx, Some(current))
            && (x in VisibleOf(xs, ctx, Some(current)) <==>
                  IsStored(records, ctx, x) && IsVisible(records, ctx, current, x.record.body))
  {
    var xs := Materialize(Fresh(records));
    IntervalIsStored(records, ctx, current, x.record.body);
    HeldInOrder(records);
    OfMaterialized(xs, ctx);
    OfIn(xs, ctx);
    VisibleMaterialized(Of(xs, ctx), StartOf(Of(xs, ctx)), EndOf(Of(xs, ctx), Some(current)));
    VisibleAre(Of(xs, ctx), StartOf(Of(xs, ctx)), EndOf(Of(xs, ctx), Some(current)));
    MaterializeAgain(VisibleOf(xs, ctx, Some(current)));
    HeldOf(records, x);
  }

  /** The record gets a marker: it is an event, a trinary of the behaviour or an assertion. */
  predicate IsMarked(b: Body) {
    b.EventSeen? || (b.TrinarySeen? && (b.lane.Behaviour? || b.role.Assertion?))
  }

  /** In every run, a drained client lists a scenario for each context with records. Its lanes hold a record exactly once
      if it is stored for the context, is not a discard, is flagged as the store has it and has its stamp inside the
      scenario's interval, and otherwise not at all; each lane is in recording order. Of these records the events, the
      behaviour's trinaries and the assertions get a marker each. */
  lemma LanesOfDrained<C>(states: seq<System<C>>, events: seq<Action<C>>, n: nat, client: C, ctx: string,
                          definitions: seq<Definition>, x: Shown, slot: Slot)
    requires IsRun(states, events) && n < |states| && client in states[n].queues
    requires Stored(states[n].core.records, ctx) != []
    ensures var records, q := states[n].core.records, states[n].queues[client];
            && Of(Held(q), ctx) != [] && (ctx != "" ==> ctx in Contexts(Held(q)))
            && var shown := IsStored(records, ctx, x) && IsVisible(records, ctx, states[n].status.stamp, x.record.body);
               && LaneContents(Rendered(q, ctx), ctx, definitions)[x] == (if shown then 1 else 0)
               && Markers(Rendered(q, ctx), ctx, definitions)[x]
                  == (if shown && IsMarked(x.record.body) then 1 else 0)
               && var lane := InSlot(Rendered(q, ctx), ctx, slot);
                  forall i, j :: 0 <= i < j < |lane| ==> lane[i].record.sequence < lane[j].record.sequence
  {
    var records, q := states[n].core.records, states[n].queues[client];
    ClientsConverge(states, events, n);
    assert Converged(q, records, states[n].status);
    VisibleExactly(records, ctx, states[n].status.stamp, x);
    ContextsAre(Held(q), ctx);
    ContentsExactly(Rendered(q, ctx), ctx, definitions, x);
    LaneInOrder(Rendered(q, ctx), ctx, slot);
  }

  /** Exactly when an assertion is drawn, and as what, in every run: its stamp lies inside the scenario's interval, and
      the ring of a discard is around it if and only if a pair of the messages reported and later omitted it. */
  lemma AssertionsDrawn<C>(states: seq<System<C>>, events: seq<Action<C>>, n: nat, client: C, i: nat,
                           definitions: seq<Definition>, flag: bool)
    requires IsRun(states, events) && n < |states| && client in states[n].queues
    requires i < |states[n].core.records| && IsAssertion(states[n].core.records[i].body)
    ensures var records, q, r := states[n].core.records, states[n].queues[client], states[n].core.records[i];
            && Stored(records, r.body.ctx) != [] && Of(Held(q), r.body.ctx) != []
            && Markers(Rendered(q, r.body.ctx), r.body.ctx, definitions)[Shown(r, flag)]
               == (if && InInterval(Bodies(Stored(records, r.body.ctx)), Some(states[n].status.stamp), r.body)
                      && flag == RetractedEver(AllChunks(Messages(events[..n])), KeyOf(r.body))
                   then 1 else 0)
  {
    var r := states[n].core.records[i];
    StoredAre(states[n].core.records, r.body.ctx);
    assert r in Stored(states[n].core.records, r.body.ctx);
    FlagsFromMessages(states, events, n, client, i);
    LanesOfDrained(states, events, n, client, r.body.ctx, definitions, Shown(r, flag), EventSlot);
  }

  /** How often the lanes that the client builds for the context hold the record, flagged or not. */
  function TimesInLanes(q: QueueState, ctx: string, definitions: seq<Definition>, r: Record): nat {
    if Of(Held(q), ctx) == [] then 0
    else
      var contents := LaneContents(Rendered(q, ctx), ctx, definitions);
      contents[Shown(r, false)] + contents[Shown(r, true)]
  }

  lemma TimesWithFlag<C>(states: seq<System<C>>, events: seq<Action<C>>, n: nat, client: C, r: Record,
                         definitions: seq<Definition>, flag: bool)
    requires IsRun(states, events) && n < |states| && client in states[n].queues
    requires r in states[n].core.records && !r.body.Discarded?
    ensures Of(Held(states[n].queues[client]), r.body.ctx) != []
    ensures LaneContents(Rendered(states[n].queues[client], r.body.ctx), r.body.ctx, definitions)[Shown(r, flag)]
            == if flag == IsDiscarded(states[n].core.records, r.Id())
                  && IsVisible(states[n].core.records, r.body.ctx, states[n].status.stamp, r.body) then 1 else 0
  {
    StoredAre(states[n].core.records, r.body.ctx);
    assert r in Stored(states[n].core.records, r.body.ctx);
    LanesOfDrained(states, events, n, client, r.body.ctx, definitions, Shown(r, flag), EventSlot);
  }

  /** In every run, each stored record that is not a discard is once in the lanes of its context, unless its stamp is
      outside the scenario's interval; then no lane holds it. */
  lemma HiddenExactly<C>(states: seq<System<C>>, events: seq<Action<C>>, n: nat, client: C, r: Record,
                         definitions: seq<Definition>)
    requires IsRun(states, events) && n < |states| && client in states[n].queues
    requires r in states[n].core.records && !r.body.Discarded?
    ensures Stored(states[n].core.records, r.body.ctx) != []
    ensures TimesInLanes(states[n].queues[client], r.body.ctx, definitions, r)
            == if InInterval(Bodies(Stored(states[n].core.records, r.body.ctx)), Some(states[n].status.stamp), r.body)
               then 1 else 0
  {
    StoredAre(states[n].core.records, r.body.ctx);
    assert r in Stored(states[n].core.records, r.body.ctx);
    TimesWithFlag(states, events, n, client, r, definitions, false);
    TimesWithFlag(states, events, n, client, r, definitions, true);
  }

  // ---------- every message can be ingested, and an example ----------

  lemma {:induction false} EnumerationExists(ids: set<RecordId>) returns (order: seq<RecordId>)
    ensures Enumerates(order, ids)
    decreases ids
  {
    if ids == {} {
      order := [];
    } else {
      var id :| id in ids;
      var rest := EnumerationExists(ids - {id});
      order := rest + [id];
    }
  }

  lemma StepPossible(c: Core, ch: Chunk) returns (c': Core)
    ensures Step(c, ch, c')
  {
    if ch.Plain? {
      c' := AddAll(c, ch.bodies);
    } else {
      var order := EnumerationExists(Stale(c, ch));
      c' := FluentPost(c, ch, order);
    }
  }

  lemma {:induction false} IngestPossible(c: Core, chunks: seq<Chunk>) returns (c': Core)
    ensures Runs(c, chunks, c')
    decreases |chunks|
  {
    if chunks == [] {
      c' := c;
    } else {
      var front, last := chunks[..|chunks| - 1], chunks[|chunks| - 1];
      assert front + [last] == chunks;
      var m := IngestPossible(c, front);
      c' := StepPossible(m, last);
      RunsSnoc(c, front, m, last, c');
    }
  }

  const NO_TIME := Stamp(0, 0)
  const NO_TRINARY := Trinary(NO_TIME, Unknown, "")
  const HELD := Trinary(Stamp(2, 0), True, "observed")

  lemma ReachesSnoc(msgs: seq<StatusList>, c: Core, msg: StatusList, c': Core)
    requires Reaches(msgs, c) && Ingests(c, msg, c')
    ensures Reaches(msgs + [msg], c')
  {
    assert (msgs + [msg])[..|msgs + [msg]| - 1] == msgs;
  }

  lemma {:induction false} ReachPossible(msgs: seq<StatusList>) returns (c: Core)
    ensures Reaches(msgs, c)
  {
    if msgs == [] {
      c := EMPTY;
    } else {
      var front, last := msgs[..|msgs| - 1], msgs[|msgs| - 1];
      assert front + [last] == msgs;
      var m := ReachPossible(front);
      c := IngestPossible(m, Chunks(last));
      ReachesSnoc(front, m, last, c);
    }
  }

  function HeldFluent(trinaries: seq<Trinary>): Fluent {
    Fluent("held", "held", NO_TIME, NO_TIME, NO_TRINARY, trinaries)
  }

  const HELD_KEY := KeyOf(AssertionOf("ctx", HeldFluent([HELD]), HELD))

  /** Without a URI the fluent's records go by its title. */
  function UntitledFluent(trinaries: seq<Trinary>): Fluent {
    Fluent("", "held", NO_TIME, NO_TIME, NO_TRINARY, trinaries)
  }

  function Listing(fluents: seq<Fluent>): StatusList {
    StatusList(Stamp(3, 0), [Scenario("ctx", "", NO_TIME, NO_TIME, NO_TRINARY, "pick", NO_TRINARY, [], fluents)])
  }

  function Entry(f: Fluent): Chunk {
    OfFluent("ctx", Stamp(3, 0), f)
  }

  lemma OneScenario(stamp: Stamp, s: Scenario)
    ensures ScenariosChunks(stamp, [s]) == ScenarioChunks(stamp, s)
  {
    assert [s][..0] == [];
    assert ScenariosChunks(stamp, []) == [];
  }

  lemma ScenarioParts(stamp: Stamp, s: Scenario)
    ensures var chunks, m := ScenarioChunks(stamp, s), |s.fluents|;
            && |chunks| == m + 2 && chunks[0].Plain? && chunks[m + 1].Plain?
            && forall i :: 0 <= i < m ==> chunks[i + 1] == OfFluent(s.contextId, stamp, s.fluents[i])
  {
  }

  lemma ListingChunks(fluents: seq<Fluent>)
    ensures var chunks := Chunks(Listing(fluents));
            && |chunks| == |fluents| + 2 && chunks[0].Plain? && chunks[|fluents| + 1].Plain?
            && forall i :: 0 <= i < |fluents| ==> chunks[i + 1] == Entry(fluents[i])
  {
    OneScenario(Stamp(3, 0), Listing(fluents).scenarios[0]);
    ScenarioParts(Stamp(3, 0), Listing(fluents).scenarios[0]);
  }

  lemma OneMessage(a: StatusList)
    ensures AllChunks([a]) == Chunks(a)
  {
    assert [a][..0] == [];
    assert AllChunks([]) == [];
  }

  lemma TwoMessages(a: StatusList, b: StatusList)
    ensures AllChunks([a, b]) == Chunks(a) + Chunks(b)
  {
    assert [a, b][..1] == [a] && [a][..0] == [];
    assert AllChunks([a]) == [] + Chunks(a);
  }

  lemma ThreeMessages(a: StatusList, b: StatusList, c: StatusList)
    ensures AllChunks([a, b, c]) == Chunks(a) + Chunks(b) + Chunks(c)
  {
    assert [a, b, c][..2] == [a, b];
    TwoMessages(a, b);
  }

  lemma HeldReports()
    ensures Reports(Entry(HeldFluent([HELD])), HELD_KEY) && !Reports(Entry(HeldFluent([])), HELD_KEY)
    ensures Reports(Entry(UntitledFluent([HELD])), HELD_KEY) && !Reports(Entry(UntitledFluent([])), HELD_KEY)
  {
    assert HELD in HeldFluent([HELD]).trinaries && HELD in UntitledFluent([HELD]).trinaries;
    assert HELD_KEY == KeyOf(AssertionOf("ctx", UntitledFluent([HELD]), HELD));
  }

  lemma ReachedActiveYetDiscarded(msgs: seq<StatusList>, p: int, q: int, r: int) returns (c: Core)
    requires Retracted(AllChunks(msgs), p, q, HELD_KEY) && ReportedLast(AllChunks(msgs), r, HELD_KEY)
    ensures Reaches(msgs, c) && HELD_KEY in c.seen
    ensures IsActive(c, c.seen[HELD_KEY]) && IsDiscarded(c.records, c.seen[HELD_KEY])
  {
    c := ReachPossible(msgs);
    ReachesRuns(msgs, c);
    ReappearingStaysDiscarded(EMPTY, AllChunks(msgs), c, p, q, r, HELD_KEY);
  }

  /** Three messages after which an assertion is both active and discarded: it was missing and came back. */
  lemma ActiveYetDiscarded() returns (c: Core)
    ensures Reaches([Listing([HeldFluent([HELD])]), Listing([HeldFluent([])]), Listing([HeldFluent([HELD])])], c)
    ensures HELD_KEY in c.seen && IsActive(c, c.seen[HELD_KEY]) && IsDiscarded(c.records, c.seen[HELD_KEY])
  {
    var m1, m0 := Listing([HeldFluent([HELD])]), Listing([HeldFluent([])]);
    ListingChunks([HeldFluent([HELD])]);
    ListingChunks([HeldFluent([])]);
    ThreeMessages(m1, m0, m1);
    HeldReports();
    c := ReachedActiveYetDiscarded([m1, m0, m1], 1, 4, 7);
  }

  const BOTH := Listing([HeldFluent([HELD]), UntitledFluent([HELD])])
  const FIRST_ONLY := Listing([HeldFluent([HELD]), UntitledFluent([])])

  lemma SharedEntries()
    ensures var chunks := AllChunks([BOTH, FIRST_ONLY]);
            && |chunks| == 8 && chunks[0].Plain? && chunks[3].Plain? && chunks[4].Plain? && chunks[7].Plain?
            && chunks[1] == chunks[5] == Entry(HeldFluent([HELD]))
            && chunks[2] == Entry(UntitledFluent([HELD])) && chunks[6] == Entry(UntitledFluent([]))
  {
    ListingChunks([HeldFluent([HELD]), UntitledFluent([HELD])]);
    ListingChunks([HeldFluent([HELD]), UntitledFluent([])]);
    TwoMessages(BOTH, FIRST_ONLY);
  }

  lemma NeverMissing(i: nat)
    requires i < |AllChunks([BOTH, FIRST_ONLY])| && Lists(AllChunks([BOTH, FIRST_ONLY])[i], ActiveKey("ctx", "held"))
    ensures Reports(AllChunks([BOTH, FIRST_ONLY])[i], HELD_KEY)
  {
    SharedEntries();
    HeldReports();
  }

  lemma SharedRetracted()
    ensures Retracted(AllChunks([BOTH, FIRST_ONLY]), 2, 6, HELD_KEY)
    ensures ReportedLast(AllChunks([BOTH, FIRST_ONLY]), 5, HELD_KEY)
  {
    SharedEntries();
    HeldReports();
  }

  /** Two messages suffice when two pairs share a record: it never goes missing at the first pair. */
  lemma SharedYetDiscarded() returns (c: Core)
    ensures Reaches([BOTH, FIRST_ONLY], c)
    ensures var entries := AllChunks([BOTH, FIRST_ONLY]);
            forall i :: 0 <= i < |entries| && Lists(entries[i], ActiveKey("ctx", "held")) ==> Reports(entries[i], HELD_KEY)
    ensures HELD_KEY in c.seen && IsActive(c, c.seen[HELD_KEY]) && IsDiscarded(c.records, c.seen[HELD_KEY])
  {
    var entries := AllChunks([BOTH, FIRST_ONLY]);
    forall i | 0 <= i < |entries| && Lists(entries[i], ActiveKey("ctx", "held")) ensures Reports(entries[i], HELD_KEY) {
      NeverMissing(i);
    }
    SharedRetracted();
    c := ReachedActiveYetDiscarded([BOTH, FIRST_ONLY], 2, 6, 5);
  }

  // ---------- an assertion that no lane holds ----------

  const LATE := Trinary(Stamp(7, 0), True, "observed")

  const OVER :=
    StatusMessages.Scenario("ctx", "pick", Stamp(1, 0), Stamp(5, 0), NO_TRINARY, "pick", NO_TRINARY, [], [HeldFluent([LATE])])

  /** The scenario ended before the assertion was observed. */
  const OVERTIME := StatusList(Stamp(8, 0), [OVER])

  const LATE_KEY := KeyOf(AssertionOf("ctx", HeldFluent([LATE]), LATE))

  lemma OvertimeChunks()
    ensures var chunks := Chunks(OVERTIME);
            && |chunks| == 3
            && chunks[0] == Plain(StartBodies(OVER) + EventBodies("ctx", []) + BehaviourBodies(OVER))
            && chunks[1] == OfFluent("ctx", Stamp(8, 0), HeldFluent([LATE]))
            && chunks[2] == Plain(EndBodies(OVER))
            && WellFormed(chunks)
  {
    OneScenario(Stamp(8, 0), OVER);
    ChunksWellFormed(Stamp(8, 0), [OVER]);
  }

  /** The message reports one end. */
  lemma OvertimeSays(b: Body)
    ensures Identity.Said([OVERTIME], b) && b.ScenarioEnd? ==> b.stamp == Stamp(5, 0)
    ensures Identity.Said([OVERTIME], EndBodies(OVER)[0])
  {
    assert OVER in OVERTIME.scenarios && Identity.Says(OVER, EndBodies(OVER)[0]);
    assert Identity.SaidIn(OVERTIME, EndBodies(OVER)[0]);
    if Identity.Said([OVERTIME], b) {
      var m, s :| m in [OVERTIME] && s in m.scenarios && Identity.Says(s, b);
    }
  }

  lemma OvertimeActive(c: Core)
    requires Reaches([OVERTIME], c)
    ensures LATE_KEY in c.seen && IsActive(c, c.seen[LATE_KEY])
  {
    var chunks := AllChunks([OVERTIME]);
    OneMessage(OVERTIME);
    OvertimeChunks();
    assert LATE in HeldFluent([LATE]).trinaries;
    assert ReportedLast(chunks, 1, LATE_KEY);
    ReachesRuns([OVERTIME], c);
    LastStands(EMPTY, chunks, 1, LATE_KEY);
    RunHolds(EMPTY, chunks, c, chunks[1].Key(), LATE_KEY);
    ActiveWhenHeld(c, LATE_KEY);
  }

  lemma OvertimeHasEnd(c: Core)
    requires Reaches([OVERTIME], c)
    ensures HasEnd(Bodies(Stored(c.records, "ctx")))
  {
    var rs, end := Stored(c.records, "ctx"), EndBodies(OVER)[0];
    StoredAre(c.records, "ctx");
    OvertimeSays(end);
    var j := Identity.SaidIsRecorded([OVERTIME], c, end);
    assert c.records[j] in rs;
    var k :| 0 <= k < |rs| && rs[k] == c.records[j];
    assert Bodies(rs)[k].ScenarioEnd?;
  }

  /** So the scenario's interval ends at that time, whatever the order of its records. */
  lemma OvertimeEnds(c: Core)
    requires Reaches([OVERTIME], c)
    ensures forall b :: b in Bodies(Stored(c.records, "ctx")) && b.ScenarioEnd? ==> b.stamp == Stamp(5, 0)
  {
    var rs := Stored(c.records, "ctx");
    StoredAre(c.records, "ctx");
    forall b | b in Bodies(rs) && b.ScenarioEnd? ensures b.stamp == Stamp(5, 0) {
      var i :| 0 <= i < |rs| && Bodies(rs)[i] == b;
      assert rs[i] in c.records;
      var q :| 0 <= q < |c.records| && c.records[q] == rs[i];
      Identity.RecordedWasSaid([OVERTIME], c, q);
      OvertimeSays(b);
    }
  }

  /** Nothing after that time is visible. */
  lemma OvertimeHides(c: Core, b: Body)
    requires Reaches([OVERTIME], c) && TimeOf(b) > 5_000_000_000
    ensures !IsVisible(c.records, "ctx", OVERTIME.stamp, b)
  {
    var bs := Bodies(Stored(c.records, "ctx"));
    OvertimeHasEnd(c);
    OvertimeEnds(c);
    forall i | EndsAt(bs, i) ensures bs[i].stamp == Stamp(5, 0) {
      assert bs[i] in bs;
    }
  }

  lemma IngestGrows(msg: StatusList, c: Core)
    requires Ingests(EMPTY, msg, c)
    ensures |EMPTY.records| <= |c.records|
  {
  }

  /** A client joins and receives the message. */
  lemma OvertimeRun() returns (states: seq<System<int>>, events: seq<Action<int>>)
    ensures IsRun(states, events) && |events| == 2 && 0 in states[2].queues
    ensures Messages(events) == [OVERTIME] && states[2].status == OVERTIME
  {
    var s0: System<int> := System(EMPTY, NO_STATUS, false, map[]);
    var s1 := s0.(queues := map[0 := Welcome(false, NO_STATUS, [])]);
    var c := IngestPossible(EMPTY, Chunks(OVERTIME));
    IngestGrows(OVERTIME, c);
    var q := PutAll(s1.queues[0], Publication(OVERTIME, c.records[0..]), Snapshot(OVERTIME, Some(c.records)));
    var s2 := System(c, OVERTIME, false, map[0 := q]);
    states, events := [s0, s1, s2], [Join(0), Ingest(OVERTIME)];
    assert Next(s0, Join(0), s1);
    assert IngestNext(s1, OVERTIME, s2);
    assert events[..1] == [Join(0)] && events[..1][..0] == [];
    assert Messages([Join(0)]) == [];
  }

  lemma OvertimeRecord(c: Core) returns (i: nat)
    requires Reaches([OVERTIME], c)
    ensures i < |c.records| && IsAssertion(c.records[i].body) && IsActive(c, c.records[i].Id())
    ensures !IsVisible(c.records, "ctx", OVERTIME.stamp, c.records[i].body) && c.records[i].body.ctx == "ctx"
  {
    OvertimeActive(c);
    ReachableKey([OVERTIME], c, LATE_KEY);
    i := c.seen[LATE_KEY].n - 1;
    OvertimeHides(c, c.records[i].body);
  }

  /** In that run the store holds an active assertion that no lane of the drained client holds. */
  lemma RecordedAndHidden(definitions: seq<Definition>)
    returns (states: seq<System<int>>, events: seq<Action<int>>, i: nat)
    ensures IsRun(states, events) && |events| == 2 && 0 in states[2].queues
    ensures var core := states[2].core;
            && i < |core.records| && IsAssertion(core.records[i].body) && IsActive(core, core.records[i].Id())
            && TimesInLanes(states[2].queues[0], core.records[i].body.ctx, definitions, core.records[i]) == 0
  {
    states, events := OvertimeRun();
    RunReaches(states, events, 2);
    assert events[..2] == events;
    i := OvertimeRecord(states[2].core);
    HiddenExactly(states, events, 2, 0, states[2].core.records[i], definitions);
  }
}
