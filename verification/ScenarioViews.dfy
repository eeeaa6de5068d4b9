/** The browser's scenarios: the records of each context, in order of first mention, and the interval they span. */
module ScenarioViews {
  import opened StatusMessages
  import opened History
  import opened TimelineView

  /** Nanoseconds stand for the browser's seconds. */
  function Nanos(t: Stamp): int {
    t.sec * 1_000_000_000 + t.nanosec
  }

  function At(x: Shown): int {
    Nanos(x.record.body.stamp)
  }

  datatype Group = Group(contextId: string, title: string, sequence: nat, records: seq<Shown>)

  /** `value` is the verdict of the last end record; without one the scenario is running. */
  datatype Span = Span(
    contextId: string, title: string, sequence: nat, records: seq<Shown>,
    start: int, end: int, finished: bool, value: Option<TrinaryValue>)

  // ---------- the interval of a scenario ----------

  /** The first start record. */
  function FirstStart(rs: seq<Shown>): Option<Shown> {
    if rs == [] then None else if rs[0].record.body.ScenarioStart? then Some(rs[0]) else FirstStart(rs[1..])
  }

  /** The last end record. */
  function LastEnd(rs: seq<Shown>): (end: Option<Shown>)
    ensures end.Some? ==> end.value.record.body.ScenarioEnd?
  {
    if rs == [] then None
    else
      var n := |rs| - 1;
      if rs[n].record.body.ScenarioEnd? then Some(rs[n]) else LastEnd(rs[..n])
  }

  function Larger(a: int, b: int): int {
    if a >= b then a else b
  }

  /** The first start record's stamp, or else the first record's. */
  function StartOf(rs: seq<Shown>): int
    requires rs != []
  {
    var start := FirstStart(rs);
    At(if start.Some? then start.value else rs[0])
  }

  /** The last end record's stamp, or else the latest of the start, the last record and the latest status. */
  function EndOf(rs: seq<Shown>, current: Option<Stamp>): int
    requires rs != []
  {
    var end, last := LastEnd(rs), At(rs[|rs| - 1]);
    if end.Some? then At(end.value)
    else Larger(Larger(StartOf(rs), last), if current.Some? then Nanos(current.value) else last)
  }

  // ---------- grouping ----------

  function Of(xs: seq<Shown>, ctx: string): seq<Shown> {
    if xs == [] then []
    else
      var n := |xs| - 1;
      Of(xs[..n], ctx) + if xs[n].record.body.ctx == ctx then [xs[n]] else []
  }

  /** The contexts in order of first mention; records without a context are passed over. */
  function Contexts(xs: seq<Shown>): (cs: seq<string>)
    ensures forall i, j :: 0 <= i < j < |cs| ==> cs[i] != cs[j]
  {
    if xs == [] then []
    else
      var cs, ctx := Contexts(xs[..|xs| - 1]), xs[|xs| - 1].record.body.ctx;
      if ctx == "" || ctx in cs then cs else cs + [ctx]
  }

  function GroupOf(xs: seq<Shown>, ctx: string): Group {
    var rs := Of(xs, ctx);
    Group(ctx, ScenarioTitle(xs, ctx), if rs == [] then 0 else rs[0].record.sequence, rs)
  }

  function ViewOf(g: Group, current: Option<Stamp>): Span
    requires g.records != []
  {
    var end := LastEnd(g.records);
    Span(g.contextId, g.title, g.sequence, g.records, StartOf(g.records), EndOf(g.records, current), end.Some?,
         if end.Some? then Some(end.value.record.body.value) else None)
  }

  lemma {:induction false} ContextsAre(xs: seq<Shown>, ctx: string)
    ensures ctx in Contexts(xs) <==> ctx != "" && Of(xs, ctx) != []
  {
    if xs != [] {
      ContextsAre(xs[..|xs| - 1], ctx);
    }
  }

  /** A stable insertion by the sequence number of the first record. */
  function InsertGroup(gs: seq<Group>, g: Group): seq<Group> {
    var n := |gs| - 1;
    if gs != [] && g.sequence < gs[n].sequence then InsertGroup(gs[..n], g) + [gs[n]] else gs + [g]
  }

  function SortGroups(gs: seq<Group>): seq<Group> {
    if gs == [] then [] else InsertGroup(SortGroups(gs[..|gs| - 1]), gs[|gs| - 1])
  }

  lemma {:induction false} SortedAlready(gs: seq<Group>)
    requires forall i, j :: 0 <= i < j < |gs| ==> gs[i].sequence <= gs[j].sequence
    ensures SortGroups(gs) == gs
  {
    if gs != [] {
      SortedAlready(gs[..|gs| - 1]);
    }
  }

  function Groups(xs: seq<Shown>): seq<Group> {
    var cs := Contexts(xs);
    seq(|cs|, i requires 0 <= i < |cs| => GroupOf(xs, cs[i]))
  }

  /** The first record of a context stays its first. */
  lemma FirstStays(xs: seq<Shown>, ctx: string)
    requires xs != [] && Of(xs[..|xs| - 1], ctx) != []
    ensures Of(xs, ctx) != [] && Of(xs, ctx)[0] == Of(xs[..|xs| - 1], ctx)[0]
  {
  }

  lemma {:induction false} OfIn(xs: seq<Shown>, ctx: string)
    ensures forall x :: x in Of(xs, ctx) <==> x in xs && x.record.body.ctx == ctx
  {
    if xs != [] {
      OfIn(xs[..|xs| - 1], ctx);
      assert xs == xs[..|xs| - 1] + [xs[|xs| - 1]];
    }
  }

  /** Without records of the context its title is the context. */
  lemma {:induction false} TitleDefault(xs: seq<Shown>, ctx: string)
    requires Of(xs, ctx) == []
    ensures ScenarioTitle(xs, ctx) == ctx
  {
    if xs != [] {
      TitleDefault(xs[..|xs| - 1], ctx);
    }
  }

  /** The group of a context, one record more. */
  lemma GroupMore(xs: seq<Shown>, i: nat, ctx: string)
    requires i < |xs|
    ensures var g, x := GroupOf(xs[..i], ctx), xs[i];
            var b := x.record.body;
            GroupOf(xs[..i + 1], ctx) ==
            if b.ctx != ctx then g
            else Group(ctx, if (b.ScenarioStart? || b.ScenarioEnd?) && b.title != "" then b.title else g.title,
                       if g.records == [] then x.record.sequence else g.sequence, g.records + [x])
  {
    assert xs[..i + 1][..i] == xs[..i];
  }

  /** Records in sequence order give groups in sequence order. */
  lemma {:induction false} GroupsInOrder(xs: seq<Shown>, i: nat, j: nat)
    requires Sorted(xs) && i < j < |Contexts(xs)|
    ensures GroupOf(xs, Contexts(xs)[i]).sequence <= GroupOf(xs, Contexts(xs)[j]).sequence
  {
    var n := |xs| - 1;
    var front, cs := xs[..n], Contexts(xs[..n]);
    ContextsAre(front, Contexts(xs)[i]);
    ContextsAre(front, Contexts(xs)[j]);
    FirstStays(xs, Contexts(xs)[i]);
    OfIn(front, Contexts(xs)[i]);
    assert Of(front, Contexts(xs)[i])[0] in front;
    if j < |cs| {
      GroupsInOrder(front, i, j);
      FirstStays(xs, Contexts(xs)[j]);
    }
  }

  /** What the browser lists: a span for each context, in order of first mention. */
  function Spans(xs: seq<Shown>, current: Option<Stamp>): seq<Span> {
    var cs := Contexts(xs);
    seq(|cs|, i requires 0 <= i < |cs| => (ContextsAre(xs, cs[i]); ViewOf(GroupOf(xs, cs[i]), current)))
  }

  lemma SortedGroups(xs: seq<Shown>)
    requires Sorted(xs)
    ensures SortGroups(Groups(xs)) == Groups(xs)
  {
    var cs := Contexts(xs);
    forall i, j | 0 <= i < j < |cs| ensures Groups(xs)[i].sequence <= Groups(xs)[j].sequence {
      GroupsInOrder(xs, i, j);
    }
    SortedAlready(Groups(xs));
  }

  // ---------- the loops ----------

  /** The groups hold the records seen so far. */
  ghost predicate GroupsHold(order: seq<string>, groups: map<string, Group>, xs: seq<Shown>) {
    && order == Contexts(xs)
    && (forall c :: c in groups <==> c in order)
    && forall c :: c in groups ==> groups[c] == GroupOf(xs, c)
  }

  /** A record leaves the other groups, and one without a context leaves all. */
  lemma OthersStay(order: seq<string>, groups: map<string, Group>, xs: seq<Shown>, i: nat)
    requires i < |xs| && GroupsHold(order, groups, xs[..i])
    ensures var ctx := xs[i].record.body.ctx;
            && "" !in order
            && Contexts(xs[..i + 1]) == (if ctx == "" || ctx in order then order else order + [ctx])
            && forall c :: c in groups && c != ctx ==> groups[c] == GroupOf(xs[..i + 1], c)
  {
    assert xs[..i + 1][..i] == xs[..i];
    ContextsAre(xs[..i], "");
    forall c | c in groups && c != xs[i].record.body.ctx ensures groups[c] == GroupOf(xs[..i + 1], c) {
      GroupMore(xs, i, c);
    }
  }

  /** The group with one record more. */
  function Extended(g: Group, x: Shown): Group {
    var b := x.record.body;
    Group(g.contextId, if (b.ScenarioStart? || b.ScenarioEnd?) && b.title != "" then b.title else g.title, g.sequence,
          g.records + [x])
  }

  /** A context's group grows from the one it has, or from an empty one with the record's sequence number. */
  lemma ExtendedIs(xs: seq<Shown>, i: nat)
    requires i < |xs| && xs[i].record.body.ctx != ""
    ensures var x, ctx := xs[i], xs[i].record.body.ctx;
            GroupOf(xs[..i + 1], ctx)
            == Extended(if ctx in Contexts(xs[..i]) then GroupOf(xs[..i], ctx) else Group(ctx, ctx, x.record.sequence, []), x)
  {
    var ctx := xs[i].record.body.ctx;
    GroupMore(xs, i, ctx);
    ContextsAre(xs[..i], ctx);
    if Of(xs[..i], ctx) == [] {
      TitleDefault(xs[..i], ctx);
    }
  }

  method Extend(g: Group, x: Shown) returns (g': Group)
    ensures g' == Extended(g, x)
  {
    var b := x.record.body;
    g' := g.(records := g.records + [x]);
    if (b.ScenarioStart? || b.ScenarioEnd?) && b.title != "" {
      g' := g'.(title := b.title);
    }
  }

  lemma KeysMore<V>(order: seq<string>, m: map<string, V>, k: string, v: V)
    requires forall c :: c in m <==> c in order
    ensures var order' := if k in m then order else order + [k]; forall c :: c in m[k := v] <==> c in order'
  {
  }

  lemma HoldWith(order: seq<string>, groups: map<string, Group>, ctx: string, g: Group, xs: seq<Shown>)
    requires forall c :: c in groups <==> c in order
    requires Contexts(xs) == if ctx in groups then order else order + [ctx]
    requires forall c :: c in groups && c != ctx ==> groups[c] == GroupOf(xs, c)
    requires g == GroupOf(xs, ctx)
    ensures GroupsHold(Contexts(xs), groups[ctx := g], xs)
  {
    KeysMore(order, groups, ctx, g);
  }

  lemma HoldMore(order: seq<string>, groups: map<string, Group>, xs: seq<Shown>, i: nat)
    requires i < |xs| && GroupsHold(order, groups, xs[..i])
    ensures var x, ctx := xs[i], xs[i].record.body.ctx;
            var g := if ctx in groups then groups[ctx] else Group(ctx, ctx, x.record.sequence, []);
            if ctx == "" then GroupsHold(order, groups, xs[..i + 1])
            else GroupsHold(if ctx in groups then order else order + [ctx], groups[ctx := Extended(g, x)], xs[..i + 1])
  {
    var x, ctx := xs[i], xs[i].record.body.ctx;
    OthersStay(order, groups, xs, i);
    if ctx != "" {
      ExtendedIs(xs, i);
      var g := if ctx in groups then groups[ctx] else Group(ctx, ctx, x.record.sequence, []);
      HoldWith(order, groups, ctx, Extended(g, x), xs[..i + 1]);
    }
  }

  /** File one record under its context. */
  method AddToGroup(order: seq<string>, groups: map<string, Group>, x: Shown, ghost xs: seq<Shown>, ghost i: nat)
    returns (order': seq<string>, groups': map<string, Group>)
    requires i < |xs| && xs[i] == x && GroupsHold(order, groups, xs[..i])
    ensures GroupsHold(order', groups', xs[..i + 1])
  {
    order', groups' := order, groups;
    var ctx := x.record.body.ctx;
    HoldMore(order, groups, xs, i);
    if ctx == "" {
      return;
    }
    var g;
    if ctx in groups {
      g := groups[ctx];
    } else {
      order' := order + [ctx];
      g := Group(ctx, ctx, x.record.sequence, []);
    }
    g := Extend(g, x);
    groups' := groups[ctx := g];
  }

  method GroupRecords(records: seq<Shown>) returns (groups: seq<Group>)
    ensures groups == Groups(records)
  {
    var order: seq<string>, filed: map<string, Group> := [], map[];
    var i := 0;
    while i < |records|
      invariant 0 <= i <= |records| && GroupsHold(order, filed, records[..i])
    {
      order, filed := AddToGroup(order, filed, records[i], records, i);
      i := i + 1;
    }
    assert records[..i] == records;
    groups := seq(|order|, k requires 0 <= k < |order| => filed[order[k]]);
  }

  /** The spans of the groups, one after another. */
  method MeasureGroups(groups: seq<Group>, current: Option<Stamp>, ghost xs: seq<Shown>) returns (spans: seq<Span>)
    requires groups == Groups(xs)
    ensures spans == Spans(xs, current)
  {
    spans := [];
    var i := 0;
    while i < |groups|
      invariant 0 <= i <= |groups| && spans == Spans(xs, current)[..i]
    {
      ContextsAre(xs, Contexts(xs)[i]);
      spans := spans + [ViewOf(groups[i], current)];
      i := i + 1;
    }
  }

  method BuildScenarios(input: seq<Shown>, current: Option<Stamp>) returns (spans: seq<Span>)
    ensures spans == Spans(Materialize(input), current)
  {
    var records := Materialize(input);
    var groups := GroupRecords(records);
    SortSorts(Flagged(input, Targets(input)));
    SortedGroups(records);
    spans := MeasureGroups(SortGroups(groups), current, records);
  }

  /** Keep the selection while its scenario is listed, else take the first. */
  function SelectContext(spans: seq<Span>, selected: Option<string>): (choice: Option<string>)
    ensures choice.Some? <==> spans != []
    ensures choice.Some? ==> exists i :: 0 <= i < |spans| && spans[i].contextId == choice.value
    ensures choice != selected ==> forall i :: 0 <= i < |spans| ==> selected != Some(spans[i].contextId)
    ensures choice.Some? && choice != selected ==> choice.value == spans[0].contextId
  {
    if exists i :: 0 <= i < |spans| && selected == Some(spans[i].contextId) then selected
    else if spans != [] then Some(spans[0].contextId)
    else None
  }
}
