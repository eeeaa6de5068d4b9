/** What the browser renders: the lanes of the selected scenario, built from its records inside its interval, and the
    markers drawn in them. */
module Rendering {
  import opened StatusMessages
  import opened History
  import opened Fanout
  import opened TimelineView
  import opened ScenarioViews

  /** Records as the browser receives them. */
  function Fresh(rs: seq<Record>): seq<Shown> {
    seq(|rs|, i requires 0 <= i < |rs| => Shown(rs[i], false))
  }

  // ---------- the visible records ----------

  predicate Within(x: Shown, lo: int, hi: int) {
    lo <= At(x) <= hi
  }

  function Visible(rs: seq<Shown>, lo: int, hi: int): seq<Shown> {
    if rs == [] then []
    else
      var n := |rs| - 1;
      Visible(rs[..n], lo, hi) + if Within(rs[n], lo, hi) then [rs[n]] else []
  }

  lemma {:induction false} VisibleAre(rs: seq<Shown>, lo: int, hi: int)
    ensures forall x :: x in Visible(rs, lo, hi) <==> x in rs && Within(x, lo, hi)
  {
    if rs != [] {
      VisibleAre(rs[..|rs| - 1], lo, hi);
      assert rs == rs[..|rs| - 1] + [rs[|rs| - 1]];
    }
  }

  /** Strictly in sequence order, without discards: what materializing leaves alone. */
  ghost predicate IsMaterialized(xs: seq<Shown>) {
    && (forall i, j :: 0 <= i < j < |xs| ==> xs[i].record.sequence < xs[j].record.sequence)
    && forall x :: x in xs ==> !x.record.body.Discarded?
  }

  lemma MaterializedSnoc(xs: seq<Shown>, x: Shown)
    requires IsMaterialized(xs) && !x.record.body.Discarded?
    requires forall y :: y in xs ==> y.record.sequence < x.record.sequence
    ensures IsMaterialized(xs + [x])
  {
    assert forall i :: 0 <= i < |xs| ==> xs[i] in xs;
  }

  lemma MaterializedFront(xs: seq<Shown>)
    requires IsMaterialized(xs) && xs != []
    ensures var n := |xs| - 1;
            && IsMaterialized(xs[..n]) && !xs[n].record.body.Discarded?
            && forall y :: y in xs[..n] ==> y.record.sequence < xs[n].record.sequence
  {
    assert xs == xs[..|xs| - 1] + [xs[|xs| - 1]];
  }

  lemma {:induction false} VisibleMaterialized(rs: seq<Shown>, lo: int, hi: int)
    requires IsMaterialized(rs)
    ensures IsMaterialized(Visible(rs, lo, hi))
  {
    if rs != [] {
      var n := |rs| - 1;
      MaterializedFront(rs);
      VisibleMaterialized(rs[..n], lo, hi);
      VisibleAre(rs[..n], lo, hi);
      if Within(rs[n], lo, hi) {
        MaterializedSnoc(Visible(rs[..n], lo, hi), rs[n]);
      }
    }
  }

  lemma {:induction false} OfMaterialized(xs: seq<Shown>, ctx: string)
    requires IsMaterialized(xs)
    ensures IsMaterialized(Of(xs, ctx))
  {
    if xs != [] {
      var n := |xs| - 1;
      MaterializedFront(xs);
      OfMaterialized(xs[..n], ctx);
      OfIn(xs[..n], ctx);
      if xs[n].record.body.ctx == ctx {
        MaterializedSnoc(Of(xs[..n], ctx), xs[n]);
      }
    }
  }

  /** Materializing again keeps the flags and the order. */
  lemma MaterializeAgain(xs: seq<Shown>)
    requires IsMaterialized(xs)
    ensures Materialize(xs) == xs
  {
    assert Targets(xs) == {};
    FlaggedAgain(xs);
    SortSorted(xs);
  }

  /** The records that `buildLanes` gets for a listed scenario. */
  function VisibleOf(xs: seq<Shown>, ctx: string, current: Option<Stamp>): seq<Shown>
    requires Of(xs, ctx) != []
  {
    var rs := Of(xs, ctx);
    Visible(rs, StartOf(rs), EndOf(rs, current))
  }

  /** The clauses that the latest status lists for the context. */
  function DefinitionsOf(ss: seq<StatusMessages.Scenario>, ctx: string): seq<Definition> {
    if ss == [] then []
    else if ss[0].contextId == ctx then
      [Definition(Behaviour, ss[0].behaviour, "")]
      + seq(|ss[0].fluents|, i requires 0 <= i < |ss[0].fluents| =>
            Definition(Policy, ss[0].fluents[i].representation, ss[0].fluents[i].uri))
    else DefinitionsOf(ss[1..], ctx)
  }

  function Definitions(latest: Option<StatusList>, ctx: string): seq<Definition> {
    if latest.Some? then DefinitionsOf(latest.value.scenarios, ctx) else []
  }

  function Current(latest: Option<StatusList>): Option<Stamp> {
    if latest.Some? then Some(latest.value.stamp) else None
  }

  // ---------- rendering ----------

  datatype Lanes = Lanes(scenario: Lane, events: seq<Shown>, order: seq<LaneKey>, clauses: map<LaneKey, Lane>)

  /** The lanes are those of the records `xs`, for the context and the clauses defined. */
  ghost predicate LanesFor(lanes: Lanes, xs: seq<Shown>, ctx: string, definitions: seq<Definition>) {
    && lanes.scenario == ScenarioLane(xs, ctx)
    && lanes.events == InSlot(xs, ctx, EventSlot)
    && LanesOf(lanes.order, lanes.clauses, DefinedClauses(definitions) + RecordedClauses(xs, ctx), xs, ctx)
  }

  method FindSpan(spans: seq<Span>, ctx: string) returns (span: Span)
    requires exists i :: 0 <= i < |spans| && spans[i].contextId == ctx
    ensures span in spans && span.contextId == ctx
  {
    var i := 0;
    while spans[i].contextId != ctx
      invariant 0 <= i < |spans| && exists k :: i <= k < |spans| && spans[k].contextId == ctx
      decreases |spans| - i
    {
      i := i + 1;
    }
    span := spans[i];
  }

  lemma SpanIs(xs: seq<Shown>, current: Option<Stamp>, span: Span)
    requires span in Spans(xs, current)
    ensures var rs := Of(xs, span.contextId);
            rs != [] && span.records == rs && span.start == StartOf(rs) && span.end == EndOf(rs, current)
  {
    var i :| 0 <= i < |Contexts(xs)| && Spans(xs, current)[i] == span;
    ContextsAre(xs, Contexts(xs)[i]);
  }

  /** The selected scenario after rendering, if any is listed, and its lanes. */
  method Render(view: View, selected: Option<string>) returns (choice: Option<string>, lanes: Lanes)
    ensures var xs := Materialize(Fresh(view.records));
            && choice == SelectContext(Spans(xs, Current(view.latest)), selected)
            && (choice.Some? ==>
                  && Of(xs, choice.value) != []
                  && LanesFor(lanes, Materialize(VisibleOf(xs, choice.value, Current(view.latest))), choice.value,
                              Definitions(view.latest, choice.value)))
  {
    ghost var xs := Materialize(Fresh(view.records));
    var current := Current(view.latest);
    var spans := BuildScenarios(Fresh(view.records), current);
    choice := SelectContext(spans, selected);
    if choice == None {
      lanes := Lanes(Lane("", [], ""), [], [], map[]);
      return;
    }
    var ctx := choice.value;
    var span := FindSpan(spans, ctx);
    SpanIs(xs, current, span);
    var visible := Visible(span.records, span.start, span.end);
    var scenario, events, order, clauses := BuildLanes(visible, ctx, Definitions(view.latest, ctx));
    lanes := Lanes(scenario, events, order, clauses);
  }

  // ---------- markers ----------

  predicate IsTimelineTrinary(x: Shown) {
    x.record.body.TrinarySeen? && (x.record.body.lane.Behaviour? || x.record.body.role.Assertion?)
  }

  function TimelineTrinaries(rs: seq<Shown>): seq<Shown> {
    if rs == [] then []
    else
      var n := |rs| - 1;
      TimelineTrinaries(rs[..n]) + if IsTimelineTrinary(rs[n]) then [rs[n]] else []
  }

  lemma {:induction false} TrinariesAmong(rs: seq<Shown>, x: Shown)
    ensures multiset(TimelineTrinaries(rs))[x] == if IsTimelineTrinary(x) then multiset(rs)[x] else 0
  {
    if rs != [] {
      TrinariesAmong(rs[..|rs| - 1], x);
      assert rs == rs[..|rs| - 1] + [rs[|rs| - 1]];
    }
  }

  /** The records of all clause lanes, in lane order. */
  function ClausesOf(xs: seq<Shown>, ctx: string, definitions: seq<Definition>): seq<Shown> {
    ClauseLanes(xs, ctx, LaneOrder(DefinedClauses(definitions) + RecordedClauses(xs, ctx)))
  }

  /** All that the lanes of the context hold. */
  function LaneContents(xs: seq<Shown>, ctx: string, definitions: seq<Definition>): multiset<Shown> {
    multiset(ScenarioLane(xs, ctx).records) + multiset(InSlot(xs, ctx, EventSlot)) + multiset(ClausesOf(xs, ctx, definitions))
  }

  /** A marker for each event, and for each trinary that the timeline shows. */
  function Markers(xs: seq<Shown>, ctx: string, definitions: seq<Definition>): multiset<Shown> {
    multiset(InSlot(xs, ctx, EventSlot)) + multiset(TimelineTrinaries(ClausesOf(xs, ctx, definitions)))
  }

  lemma {:induction false} InContextOnce(xs: seq<Shown>, ctx: string, x: Shown)
    requires DistinctSequences(xs)
    ensures multiset(InContext(xs, ctx))[x] == if x in xs && SlotOf(ctx, x.record.body).Some? then 1 else 0
  {
    if xs != [] {
      var n := |xs| - 1;
      InContextOnce(xs[..n], ctx, x);
      assert xs == xs[..n] + [xs[n]];
      assert forall j :: 0 <= j < n ==> xs[..n][j] != xs[n];
    }
  }

  lemma {:induction false} InSlotOnce(xs: seq<Shown>, ctx: string, slot: Slot, x: Shown)
    requires DistinctSequences(xs)
    ensures multiset(InSlot(xs, ctx, slot))[x] == if x in xs && SlotOf(ctx, x.record.body) == Some(slot) then 1 else 0
  {
    if xs != [] {
      var n := |xs| - 1;
      InSlotOnce(xs[..n], ctx, slot, x);
      assert xs == xs[..n] + [xs[n]];
      assert forall j :: 0 <= j < n ==> xs[..n][j] != xs[n];
    }
  }

  /** The lanes of materialized records hold each of the context's once; markers are for its events and shown trinaries. */
  lemma ContentsExactly(xs: seq<Shown>, ctx: string, definitions: seq<Definition>, x: Shown)
    requires IsMaterialized(xs)
    ensures LaneContents(xs, ctx, definitions)[x] == if x in xs && x.record.body.ctx == ctx then 1 else 0
    ensures Markers(xs, ctx, definitions)[x] ==
            if x in xs && x.record.body.ctx == ctx && (x.record.body.EventSeen? || IsTimelineTrinary(x)) then 1 else 0
  {
    MaterializeAgain(xs);
    EachRecordOnce(xs, ctx, definitions);
    InContextOnce(xs, ctx, x);
    InSlotOnce(xs, ctx, ScenarioSlot, x);
    InSlotOnce(xs, ctx, EventSlot, x);
    TrinariesAmong(ClausesOf(xs, ctx, definitions), x);
  }
}
